/** The running process: the SQLite adapter, the shared channel statuses, and the code of
    the actors that use them. Every method updates the real state the way the program
    does and takes the matching steps of the protocol, so that whatever the actors do,
    interleaved in any way, is a run of `Protocol` and inherits its guarantees. */
module Process {
  import opened Wrappers
  import opened Webhooks
  import opened Protocol

  datatype RepositoryError = Busy | Other

  /** The adapter, one method per statement: each takes effect at once or fails and
      changes nothing. The environment decides which. */
  class Sqlite {
    var rows: map<nat, Row>
    var highWater: nat

    ghost function View(): Table
      reads this
    {
      Table(rows, highWater)
    }

    constructor ()
      ensures View() == Table(map[], 0)
    {
      rows := map[];
      highWater := 0;
    }

    method Contended() returns (error: Option<RepositoryError>)
    {
      error := *;
    }

    method InsertWebhook(content: Content) returns (r: Result<nat, RepositoryError>)
      modifies this
      ensures r.Failure? ==> View() == old(View())
      ensures r.Success? ==> old(highWater) < r.value && View() == Insert(old(View()), r.value, content)
    {
      var error := Contended();
      if error.Some? {
        return Failure(error.value);
      }
      var id: nat := *;
      if id <= highWater {
        id := highWater + 1;
      }
      rows := rows[id := FreshRow(content)];
      highWater := id;
      return Success(id);
    }

    /** Which of several equally old rows are taken, and the order of RETURNING, is up to
        the database. */
    method ReadAndDeleteByChannel(channel: string, limit: nat) returns (r: Result<map<nat, Row>, RepositoryError>)
      modifies this
      ensures r.Failure? ==> View() == old(View())
      ensures r.Success? ==>
                && IsOldestBatch(old(View()), channel, limit, r.value.Keys)
                && (forall id :: id in r.value ==> id in old(rows) && r.value[id] == old(rows)[id])
                && View() == Remove(old(View()), r.value.Keys)
    {
      var error := Contended();
      if error.Some? {
        return Failure(error.value);
      }
      ghost var witnessed := OldestBatchExists(View(), channel, limit);
      assert witnessed <= rows.Keys;
      var ids: set<nat> :| ids <= rows.Keys && IsOldestBatch(Table(rows, highWater), channel, limit, ids);
      var taken := map id | id in ids :: rows[id];
      assert taken.Keys == ids;
      rows := rows - ids;
      return Success(taken);
    }

    method PeekOldestDueByChannel(channel: string, now: int) returns (r: Result<Option<nat>, RepositoryError>)
      ensures r == Success(None) ==> NothingDue(View(), channel, now)
      ensures r.Success? && r.value.Some? ==> IsOldestDue(View(), channel, now, r.value.value)
      ensures r.Success? ==> forall other |
                  other in rows && rows[other].content.channel == channel
                  && (rows[other].nextAt.None? || rows[other].nextAt.value <= now) ::
                && r.value.Some? && r.value.value in rows
                && rows[r.value.value].content.receivedAt <= rows[other].content.receivedAt
      ensures r.Success? && r.value.Some? ==>
                && r.value.value in rows && rows[r.value.value].content.channel == channel
                && (rows[r.value.value].nextAt.None? || rows[r.value.value].nextAt.value <= now)
    {
      var error := Contended();
      if error.Some? {
        return Failure(error.value);
      }
      PeekIsTotal(View(), channel, now);
      var t := Table(rows, highWater);
      if id: nat :| id in rows && IsOldestDue(t, channel, now, id) {
        return Success(Some(id));
      }
      assert forall id :: IsOldestDue(t, channel, now, id) ==> id in rows;
      return Success(None);
    }

    method GetById(id: nat) returns (r: Result<Option<Row>, RepositoryError>)
      ensures r.Success? ==> r.value == if id in rows then Some(rows[id]) else None
    {
      var error := Contended();
      if error.Some? {
        return Failure(error.value);
      }
      return Success(if id in rows then Some(rows[id]) else None);
    }

    method CountByChannel(channel: string) returns (r: Result<nat, RepositoryError>)
      ensures r.Success? ==> r.value == |InChannel(View(), channel)|
    {
      var error := Contended();
      if error.Some? {
        return Failure(error.value);
      }
      return Success(|InChannel(Table(rows, highWater), channel)|);
    }

    method DeleteById(id: nat) returns (r: Result<(), RepositoryError>)
      modifies this
      ensures r.Failure? ==> View() == old(View())
      ensures r.Success? ==> View() == Remove(old(View()), {id})
    {
      var error := Contended();
      if error.Some? {
        return Failure(error.value);
      }
      rows := rows - {id};
      return Success(());
    }

    method RecordForwardFailure(id: nat, now: int, message: string, nextAt: int)
      returns (r: Result<(), RepositoryError>)
      modifies this
      ensures r.Failure? ==> View() == old(View())
      ensures r.Success? ==> View() == RecordFailure(old(View()), id, now, message, nextAt)
      ensures r.Success? && id in old(rows) ==>
                var row := old(rows)[id];
                rows == old(rows)[id := Row(row.content, row.attempts + 1, Some(now), Some(message), Some(nextAt))]
      ensures r.Success? && id !in old(rows) ==> rows == old(rows)
    {
      var error := Contended();
      if error.Some? {
        return Failure(error.value);
      }
      if id in rows {
        var row := rows[id];
        rows := rows[id := Row(row.content, row.attempts + 1, Some(now), Some(message), Some(nextAt))];
      }
      return Success(());
    }

    method ClearByChannel(channel: string) returns (r: Result<nat, RepositoryError>)
      modifies this
      ensures r.Failure? ==> View() == old(View())
      ensures r.Success? ==> r.value == |InChannel(old(View()), channel)|
      ensures r.Success? ==> View() == Remove(old(View()), InChannel(old(View()), channel))
    {
      var error := Contended();
      if error.Some? {
        return Failure(error.value);
      }
      var ids := InChannel(Table(rows, highWater), channel);
      rows := rows - ids;
      return Success(|ids|);
    }
  }

  datatype ChannelForwardStatus = ChannelForwardStatus(
    paused: bool, queueSize: int, lastSuccessAt: Option<int>, lastErrorAt: Option<int>,
        lastErrorMessage: Option<string>)

  /** What an actor relies on while the others run: its own loop and flight, and a clock
      that does not go back. */
  ghost predicate Keeps(before: State, after: State, who: Actor) {
    && (InFlight(after, who) <==> InFlight(before, who))
    && (InFlight(before, who) ==> FlightOf(after, who) == FlightOf(before, who))
    && (who.Forwarder? && who.channel in before.loops ==>
          who.channel in after.loops && after.loops[who.channel] == before.loops[who.channel])
    && before.clock <= after.clock
  }

  lemma {:induction false} TickKeeps(s: State, seconds: nat, who: Actor)
    ensures Keeps(s, s.(clock := s.clock + seconds), who)
  {
  }

  /** What the tasks of the process share: the adapter, the statuses and the clock. The
      protocol state and the run so far ride along as ghosts. */
  class Shared {
    const cfg: Config
    const db: Sqlite
    var statuses: map<string, ChannelForwardStatus>
    var clock: nat
    var stuckReports: multiset<nat>
    ghost const start: nat
    ghost var model: State
    ghost var trace: seq<Action>

    /** The steps taken are a run of the protocol. */
    ghost predicate Traced()
      reads this
    {
      IsRun(cfg, Initial(cfg, start), trace) && model == Run(cfg, Initial(cfg, start), trace)
    }

    /** The memory of the process is the one the protocol says; `table` is its table. */
    ghost predicate CoupledTo(table: Table)
      reads this
    {
      && model.table == table
      && model.clock == clock
      && model.stuck == stuckReports
      && statuses.Keys == cfg.Keys
      && (forall c :: c in model.paused <==> c in statuses && statuses[c].paused)
    }

    ghost predicate Valid()
      reads this, db
    {
      Traced() && CoupledTo(db.View())
    }

    /** A run has grown by one step. */
    ghost predicate Appends(before: seq<Action>, a: Action, after: seq<Action>) {
      && after == before + [a]
      && forall who :: Own(after, who) == if IsBy(a, who) then Own(before, who) + [a] else Own(before, who)
    }

    constructor (cfg: Config, now: nat)
      ensures Valid() && fresh(db) && this.cfg == cfg && trace == []
    {
      this.cfg := cfg;
      db := new Sqlite();
      statuses := map c | c in cfg :: ChannelForwardStatus(false, 0, None, None, None);
      clock := now;
      stuckReports := multiset{};
      start := now;
      model := Initial(cfg, now);
      trace := [];
    }

    /** Takes one step of the protocol. */
    ghost method Take(a: Action)
      requires Traced() && Enabled(cfg, model, a)
      modifies this`model, this`trace
      ensures Traced() && model == Apply(cfg, old(model), a) && Appends(old(trace), a, trace)
    {
      RunSplits(cfg, Initial(cfg, start), trace, [a]);
      OwnAppend(trace, a);
      model, trace := Apply(cfg, model, a), trace + [a];
    }

    /** Takes a step that leaves the table and the rest of the real state alone. */
    ghost method TakeQuiet(a: Action)
      requires Valid() && Enabled(cfg, model, a) && IsQuiet(a)
      modifies this`model, this`trace
      ensures Valid() && Appends(old(trace), a, trace)
      ensures model.loops == NextLoops(cfg, old(model), a)
      ensures model.flights == NextFlights(cfg, old(model), a)
      ensures model.paused == old(model).paused && model.table == old(model).table
    {
      QuietStep(cfg, model, a);
      Take(a);
    }

    /** Takes the step of a statement that has just changed the table from `before`. */
    ghost method TakeStored(a: Action, before: Table)
      requires Traced() && CoupledTo(before) && Enabled(cfg, model, a)
      requires a.Receive? || a.Forget? || a.Poll? || a.Clear? || a.Discard?
      requires db.View() == NextTable(cfg, model, a)
      modifies this`model, this`trace
      ensures Valid() && Appends(old(trace), a, trace)
      ensures model.loops == NextLoops(cfg, old(model), a)
      ensures model.flights == NextFlights(cfg, old(model), a)
    {
      Take(a);
    }

    /** Takes the step of a failure record; a forwarder may have just reported the webhook. */
    ghost method TakeParked(a: Action, before: Table)
      requires Traced() && Enabled(cfg, model, a) && a.Park?
      requires model.table == before && model.clock == clock && statuses.Keys == cfg.Keys
      requires forall c :: c in model.paused <==> c in statuses && statuses[c].paused
      requires db.View() == NextTable(cfg, model, a)
      requires stuckReports == Apply(cfg, model, a).stuck
      modifies this`model, this`trace
      ensures Valid() && Appends(old(trace), a, trace)
      ensures model.loops == NextLoops(cfg, old(model), a)
      ensures model.flights == NextFlights(cfg, old(model), a)
    {
      Take(a);
    }

    method Elapse(seconds: nat)
      requires Valid()
      modifies this`model, this`trace, this`clock
      ensures Valid() && Appends(old(trace), Tick(seconds), trace)
      ensures model == old(model).(clock := old(model).clock + seconds) && clock == old(clock) + seconds
    {
      TickStep(cfg, model, seconds);
      Take(Tick(seconds));
      clock := clock + seconds;
    }

    /** An await point: the other actors may take any steps of theirs before this one goes
        on. Callers know only what is ensured here; this body merely lets time pass. */
    method Await(ghost who: Actor)
      requires Valid()
      modifies this, db
      ensures Valid() && old(trace) <= trace && Own(trace, who) == Own(old(trace), who)
      ensures Keeps(old(model), model, who)
    {
      var seconds: int := *;
      var lapse: nat := if seconds < 0 then 0 else seconds;
      TickKeeps(model, lapse, who);
      Elapse(lapse);
    }

    /** A panic ends the process, which is then started again with nothing in memory. */
    method Abort()
      requires Valid()
      modifies this`statuses, this`model, this`trace
      ensures Valid() && Appends(old(trace), Restart, trace)
      ensures model.table == old(model).table && model.received == old(model).received && model.flights == map[]
      ensures forall c :: c in old(model).loops ==> At(model, c, Checking)
    {
      Take(Restart);
      statuses := map c | c in cfg :: ChannelForwardStatus(false, 0, None, None, None);
    }

    /** `update_status`: changes the entry of a channel that has one; no pause changes. */
    method UpdateStatus(channel: string, status: ChannelForwardStatus -> ChannelForwardStatus)
      requires forall st :: status(st).paused == st.paused
      requires Valid()
      modifies this`statuses
      ensures Valid()
      ensures statuses == if channel !in old(statuses) then old(statuses)
                          else old(statuses)[channel := status(old(statuses)[channel])]
      ensures forall c :: c in statuses ==> c in old(statuses) && statuses[c].paused == old(statuses)[c].paused
    {
      if channel in statuses {
        statuses := statuses[channel := status(statuses[channel])];
      }
    }
  }
}
