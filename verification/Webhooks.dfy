/** The `webhooks` table: what each statement of src/lib/outbound/sqlite/webhook.rs does to it. */
module Webhooks {
  import opened Wrappers
  import opened Sets

  type Bytes = seq<bv8>

  /** The columns no statement ever updates. */
  datatype Content = Content(channel: string, headers: map<string, string>, payload: Bytes, receivedAt: int)

  datatype Row = Row(content: Content, attempts: int, lastAt: Option<int>,
                     lastError: Option<string>, nextAt: Option<int>)

  /** `highWater` is the AUTOINCREMENT sequence: the largest id ever handed out. */
  datatype Table = Table(rows: map<nat, Row>, highWater: nat)

  // ---- statements that change the table ----

  function FreshRow(content: Content): Row {
    Row(content, 0, None, None, None)
  }

  function Insert(t: Table, id: nat, content: Content): Table {
    Table(t.rows[id := FreshRow(content)], id)
  }

  function Remove(t: Table, ids: set<nat>): Table {
    t.(rows := t.rows - ids)
  }

  function Failed(row: Row, at: int, message: string, nextAt: int): Row {
    row.(attempts := row.attempts + 1, lastAt := Some(at), lastError := Some(message), nextAt := Some(nextAt))
  }

  /** The UPDATE touches nothing when the row is gone. */
  function RecordFailure(t: Table, id: nat, at: int, message: string, nextAt: int): Table {
    if id in t.rows then t.(rows := t.rows[id := Failed(t.rows[id], at, message, nextAt)]) else t
  }

  // ---- what the queries select ----

  function InChannel(t: Table, channel: string): set<nat> {
    set id | id in t.rows && t.rows[id].content.channel == channel
  }

  /** `next_attempt_at IS NULL OR next_attempt_at <= ?`. */
  predicate Due(row: Row, now: int) {
    row.nextAt.None? || row.nextAt.value <= now
  }

  /** The SELECT of a peek may return any row that satisfies this; ties on
      `received_at` are broken arbitrarily. */
  predicate IsOldestDue(t: Table, channel: string, now: int, id: nat) {
    && id in InChannel(t, channel)
    && Due(t.rows[id], now)
    && forall other :: other in InChannel(t, channel) && Due(t.rows[other], now)
                       ==> t.rows[id].content.receivedAt <= t.rows[other].content.receivedAt
  }

  predicate NothingDue(t: Table, channel: string, now: int) {
    forall id :: id in InChannel(t, channel) ==> !Due(t.rows[id], now)
  }

  /** The rows a destructive poll takes: at most `limit`, as many as there are, and none
      strictly younger than a row it leaves behind. */
  predicate IsOldestBatch(t: Table, channel: string, limit: nat, ids: set<nat>) {
    && ids <= InChannel(t, channel)
    && |ids| == (if limit < |InChannel(t, channel)| then limit else |InChannel(t, channel)|)
    && forall taken, left :: taken in ids && left in InChannel(t, channel) - ids
                             ==> t.rows[taken].content.receivedAt <= t.rows[left].content.receivedAt
  }

  // ---- every query has an answer ----

  lemma {:induction false} OldestExists(t: Table, ids: set<nat>) returns (oldest: nat)
    requires ids != {} && ids <= t.rows.Keys
    ensures oldest in ids
    ensures forall id :: id in ids ==> t.rows[oldest].content.receivedAt <= t.rows[id].content.receivedAt
  {
    var some :| some in ids;
    oldest := some;
    if ids != {some} {
      var rest := OldestExists(t, ids - {some});
      oldest := if t.rows[rest].content.receivedAt < t.rows[some].content.receivedAt then rest else some;
    }
  }

  /** A peek either finds an oldest due row or nothing is due, never both. */
  lemma {:induction false} PeekIsTotal(t: Table, channel: string, now: int)
    ensures NothingDue(t, channel, now) <==> !exists id :: IsOldestDue(t, channel, now, id)
  {
    var due := set id | id in InChannel(t, channel) && Due(t.rows[id], now);
    if due != {} {
      var id := OldestExists(t, due);
      assert IsOldestDue(t, channel, now, id);
      assert !NothingDue(t, channel, now);
    } else {
      assert forall id :: id in InChannel(t, channel) && Due(t.rows[id], now) ==> id in due;
    }
  }

  /** A batch of oldest rows exists for every limit. */
  lemma {:induction false} OldestBatchExists(t: Table, channel: string, limit: nat) returns (ids: set<nat>)
    ensures IsOldestBatch(t, channel, limit, ids)
  {
    ids := {};
    if limit > 0 {
      ids := OldestBatchExists(t, channel, limit - 1);
      var left := InChannel(t, channel) - ids;
      assert |InChannel(t, channel)| == |ids| + |left| by {
        assert InChannel(t, channel) == ids + left;
      }
      if left != {} {
        var next := OldestExists(t, left);
        ids := ids + {next};
      }
    }
  }

  // ---- destructive polls ----

  /** Polls of one channel, one after another, each returning one batch. */
  predicate ArePolls(t: Table, channel: string, limit: nat, batches: seq<set<nat>>)
    decreases |batches|
  {
    batches == [] ||
    (IsOldestBatch(t, channel, limit, batches[0]) &&
     ArePolls(Remove(t, batches[0]), channel, limit, batches[1..]))
  }

  function AfterPolls(t: Table, batches: seq<set<nat>>): Table
    decreases |batches|
  {
    if batches == [] then t else AfterPolls(Remove(t, batches[0]), batches[1..])
  }

  /** Everything the polls returned. */
  function Returned(batches: seq<set<nat>>): (ids: set<nat>)
    ensures forall i :: 0 <= i < |batches| ==> batches[i] <= ids
  {
    if batches == [] then {} else batches[0] + Returned(batches[1..])
  }

  lemma {:induction false} PollsLeave(t: Table, batches: seq<set<nat>>, id: nat)
    ensures id in AfterPolls(t, batches).rows <==> id in t.rows && id !in Returned(batches)
    ensures id in AfterPolls(t, batches).rows ==> AfterPolls(t, batches).rows[id] == t.rows[id]
    decreases |batches|
  {
    if batches != [] {
      PollsLeave(Remove(t, batches[0]), batches[1..], id);
    }
  }

  lemma {:induction false} PollsStayInChannel(t: Table, channel: string, limit: nat, batches: seq<set<nat>>)
    requires ArePolls(t, channel, limit, batches)
    ensures Returned(batches) <= InChannel(t, channel)
    decreases |batches|
  {
    if batches != [] {
      PollsStayInChannel(Remove(t, batches[0]), channel, limit, batches[1..]);
    }
  }

  lemma {:induction false} Without(t: Table, t': Table, channel: string, ids: set<nat>)
    requires t'.rows == t.rows - ids
    ensures InChannel(t', channel) == InChannel(t, channel) - ids
  {
  }

  /** What polls returned and what they left make up what was there; rows outside the
      returned ones, and so every other channel, are untouched. */
  lemma {:induction false} PollsConserve(t: Table, channel: string, limit: nat, batches: seq<set<nat>>)
    requires ArePolls(t, channel, limit, batches)
    ensures Returned(batches) <= InChannel(t, channel)
    ensures AfterPolls(t, batches).rows == t.rows - Returned(batches)
    ensures InChannel(AfterPolls(t, batches), channel) == InChannel(t, channel) - Returned(batches)
  {
    PollsStayInChannel(t, channel, limit, batches);
    var left, kept := AfterPolls(t, batches).rows, t.rows - Returned(batches);
    forall id: nat ensures (id in left <==> id in kept) && (id in left ==> left[id] == kept[id]) {
      PollsLeave(t, batches, id);
    }
    assert left.Keys == kept.Keys;
    Without(t, AfterPolls(t, batches), channel, Returned(batches));
  }

  /** No id is returned twice. */
  lemma {:induction false} PollsAreDisjoint(t: Table, channel: string, limit: nat, batches: seq<set<nat>>)
    requires ArePolls(t, channel, limit, batches)
    ensures forall i, j :: 0 <= i < j < |batches| ==> batches[i] !! batches[j]
    decreases |batches|
  {
    if batches != [] {
      var rest, t' := batches[1..], Remove(t, batches[0]);
      PollsAreDisjoint(t', channel, limit, rest);
      PollsConserve(t', channel, limit, rest);
      assert forall i :: 0 < i < |batches| ==> batches[i] == rest[i - 1];
    }
  }

  /** Polling until an answer comes back short returns every row of the channel. */
  lemma {:induction false} PollsDrain(t: Table, channel: string, limit: nat, batches: seq<set<nat>>)
    requires ArePolls(t, channel, limit, batches)
    requires batches != [] && |batches[|batches| - 1]| < limit
    ensures Returned(batches) == InChannel(t, channel)
    decreases |batches|
  {
    var first, t' := batches[0], Remove(t, batches[0]);
    assert InChannel(t', channel) == InChannel(t, channel) - first;
    if |batches| > 1 {
      PollsDrain(t', channel, limit, batches[1..]);
    } else {
      SubsetSize(first, InChannel(t, channel));
      assert Returned(batches[1..]) == {};
    }
  }

  // ---- the queue summary ----

  /** The listing behind `GET /queue`: every row of the channel once, oldest first. */
  ghost predicate IsListing(t: Table, channel: string, ids: seq<nat>) {
    Lists(t, InChannel(t, channel), ids)
  }

  ghost predicate Lists(t: Table, rows: set<nat>, ids: seq<nat>) {
    && (forall id :: id in ids <==> id in rows)
    && forall i, j :: 0 <= i < j < |ids| ==>
         ids[i] != ids[j] &&
         (ids[i] in t.rows && ids[j] in t.rows ==>
            t.rows[ids[i]].content.receivedAt <= t.rows[ids[j]].content.receivedAt)
  }

  /** Every table has such a listing, whatever its ties. */
  lemma {:induction false} ListingExists(t: Table, rows: set<nat>) returns (ids: seq<nat>)
    requires rows <= t.rows.Keys
    ensures Lists(t, rows, ids)
    decreases rows
  {
    ids := [];
    if rows != {} {
      var oldest := OldestExists(t, rows);
      var rest := ListingExists(t, rows - {oldest});
      ids := [oldest] + rest;
    }
  }

  /** `collect::<Option<Vec<_>>>()`: one absent due time makes the whole absent. */
  function AllDueTimes(t: Table, ids: seq<nat>): Option<seq<int>>
    requires forall id :: id in ids ==> id in t.rows
  {
    if ids == [] then Some([])
    else
      match (t.rows[ids[0]].nextAt, AllDueTimes(t, ids[1..]))
      case (Some(due), Some(rest)) => Some([due] + rest)
      case _ => None
  }

  function Least(times: seq<int>): Option<int> {
    if times == [] then None
    else
      match Least(times[1..])
      case None => Some(times[0])
      case Some(least) => Some(if times[0] <= least then times[0] else least)
  }

  /** `next_attempt_at` as `get_queue_route` reports it. */
  function NextDue(t: Table, ids: seq<nat>): Option<int>
    requires forall id :: id in ids ==> id in t.rows
  {
    match AllDueTimes(t, ids)
    case None => None
    case Some(times) => Least(times)
  }

  lemma {:induction false} NextDueIsEarliest(t: Table, ids: seq<nat>)
    requires forall id :: id in ids ==> id in t.rows
    ensures NextDue(t, ids).None? <==> ids == [] || exists id :: id in ids && t.rows[id].nextAt.None?
    ensures NextDue(t, ids).Some? ==>
              && (exists id :: id in ids && t.rows[id].nextAt == NextDue(t, ids))
              && (forall id :: id in ids ==>
                  t.rows[id].nextAt.Some? && NextDue(t, ids).value <= t.rows[id].nextAt.value)
  {
    if ids != [] {
      NextDueIsEarliest(t, ids[1..]);
      assert ids == [ids[0]] + ids[1..];
      if ids[1..] == [] {
      } else if NextDue(t, ids[1..]).Some? && t.rows[ids[0]].nextAt.Some? {
        assert NextDue(t, ids).value
            == if t.rows[ids[0]].nextAt.value <= NextDue(t, ids[1..]).value then t.rows[ids[0]].nextAt.value
               else NextDue(t, ids[1..]).value;
      }
    }
  }

  /** The reported time agrees with the scheduler: a peek at `now` finds a row exactly
      from that time on; without one the queue is empty or a row is due at any time. */
  lemma {:induction false} QueueSummaryAgrees(t: Table, channel: string, ids: seq<nat>, now: int)
    requires IsListing(t, channel, ids)
    ensures match NextDue(t, ids)
            case Some(due) => (exists id :: IsOldestDue(t, channel, now, id)) <==> due <= now
            case None => InChannel(t, channel) == {} || exists id :: IsOldestDue(t, channel, now, id)
  {
    NextDueIsEarliest(t, ids);
    PeekIsTotal(t, channel, now);
  }
}
