/** Safety over whole runs: nothing answered 200 is lost, nothing is delivered more often
    than failures explain, and a stale write never reaches another webhook. */
module Guarantees {
  import opened Wrappers
  import opened Sets
  import opened Webhooks
  import opened Protocol
  import opened Invariant

  // ---- what stays, once it is in the log ----

  lemma {:induction false} LogStays(cfg: Config, s: State, acts: seq<Action>, id: nat)
    requires Bounded(cfg) && Inv(cfg, s) && IsRun(cfg, s, acts)
    ensures var e := Run(cfg, s, acts);
            && (id in s.received ==> id in e.received && e.received[id] == s.received[id])
            && (id in s.gone ==> id in e.gone && e.gone[id] == s.gone[id])
            && (id in s.received && id in e.table.rows ==> id in s.table.rows)
            && s.clock <= e.clock
    decreases |acts|
  {
    if acts != [] {
      var s' := Apply(cfg, s, acts[0]);
      StepKeepsInv(cfg, s, acts[0]);
      assert StoredInv(s, id) && StoredInv(s', id);
      StoredStep(cfg, s, acts[0], id);
      DepartureStep(cfg, s, acts[0], id);
      LogStays(cfg, s', acts[1..], id);
      assert Run(cfg, s, acts) == Run(cfg, s', acts[1..]);
    }
  }

  // ---- conservation ----

  /** The action that took a webhook out of the table, by the cause in the log. */
  ghost predicate Took(a: Action, e: State, id: nat)
    requires id in e.gone && id in e.received
  {
    match e.gone[id]
    case ByForwarder => a == Forget(Forwarder(e.received[id].channel), true)
    case ByRetry(task) => a == Forget(Retry(task), true)
    case ByPoll => a.Poll? && a.channel == e.received[id].channel && id in a.ids
    case ByClear => a == Clear(e.received[id].channel)
    case ByDiscard => a == Discard(id)
  }

  /** A webhook left by an action of the run; if it left as delivered, the target had
      given the expected answer to the very actor that removed it. */
  ghost predicate Explained(e: State, acts: seq<Action>, id: nat)
    requires id in e.gone && id in e.received
  {
    && (exists i :: 0 <= i < |acts| && Took(acts[i], e, id))
    && CauseInv(e, id)
  }

  /** The log agrees with the run: an id new to the log is received exactly by a `Receive`
      of the run, with the content that action carries. */
  lemma {:induction false} LogMatchesRun(cfg: Config, s: State, acts: seq<Action>, id: nat)
    requires Bounded(cfg) && Inv(cfg, s) && IsRun(cfg, s, acts) && id !in s.received
    ensures var e := Run(cfg, s, acts);
            id in e.received <==> exists i :: 0 <= i < |acts| && acts[i].Receive? && acts[i].id == id
    ensures var e := Run(cfg, s, acts);
            id in e.received ==> Receive(id, e.received[id]) in acts
    decreases |acts|
  {
    if acts != [] {
      var a, s' := acts[0], Apply(cfg, s, acts[0]);
      StepKeepsInv(cfg, s, a);
      assert acts == [a] + acts[1..];
      if a.Receive? && a.id == id {
        LogStays(cfg, s', acts[1..], id);
        assert acts[0] == Receive(id, s'.received[id]);
      } else {
        LogMatchesRun(cfg, s', acts[1..], id);
        var e := Run(cfg, s, acts);
        if i :| 0 <= i < |acts| && acts[i].Receive? && acts[i].id == id {
          assert acts[1..][i - 1] == acts[i];
        }
        if id in e.received {
          var i :| 0 <= i < |acts[1..]| && acts[1..][i].Receive? && acts[1..][i].id == id;
          assert acts[i + 1] == acts[1..][i];
        }
      }
    }
  }

  lemma {:induction false} TakenByTheAction(cfg: Config, s: State, a: Action, e: State, id: nat)
    requires Inv(cfg, s) && Enabled(cfg, s, a) && Removes(a) && id in s.table.rows && id in Taken(s, a)
    requires id in s.received && id in e.received && e.received[id] == s.received[id]
    requires id in e.gone && e.gone[id] == CauseOf(a)
    ensures Took(a, e, id)
  {
    assert StoredInv(s, id);
    if a.Forget? {
      assert FlightInv(cfg, s, a.who);
    }
  }

  lemma {:induction false} LeftForAReason(cfg: Config, s: State, acts: seq<Action>, id: nat)
    requires Bounded(cfg) && Inv(cfg, s) && IsRun(cfg, s, acts) && id !in s.gone
    requires id in Run(cfg, s, acts).gone && id in Run(cfg, s, acts).received
    ensures exists i :: 0 <= i < |acts| && Took(acts[i], Run(cfg, s, acts), id)
    decreases |acts|
  {
    var a, s', e := acts[0], Apply(cfg, s, acts[0]), Run(cfg, s, acts);
    StepKeepsInv(cfg, s, a);
    if id in s'.gone {
      assert StoredInv(s, id);
      DepartureStep(cfg, s, a, id);
      LogStays(cfg, s, acts, id);
      LogStays(cfg, s', acts[1..], id);
      TakenByTheAction(cfg, s, a, e, id);
      assert Took(acts[0], e, id);
    } else {
      LeftForAReason(cfg, s', acts[1..], id);
      var i :| 0 <= i < |acts[1..]| && Took(acts[1..][i], e, id);
      assert Took(acts[i + 1], e, id);
    }
  }

  /** Conservation: in every interleaving, a webhook is in the log exactly when it was
      answered 200, and it is then either still stored with the content it was received
      with, or it left exactly once and the run holds the delivery, poll, clear or
      discard that took it. */
  lemma {:induction false} Conservation(cfg: Config, clock: nat, acts: seq<Action>, id: nat)
    requires Bounded(cfg) && IsRun(cfg, Initial(cfg, clock), acts)
    ensures var e := Run(cfg, Initial(cfg, clock), acts);
            && (id in e.received <==> exists i :: 0 <= i < |acts| && acts[i].Receive? && acts[i].id == id)
            && (id in e.received ==> Receive(id, e.received[id]) in acts)
            && (id in e.received ==>
                  if id in e.table.rows then id !in e.gone && e.table.rows[id].content == e.received[id]
                  else id in e.gone && Explained(e, acts, id))
  {
    var s, e := Initial(cfg, clock), Run(cfg, Initial(cfg, clock), acts);
    InitialInv(cfg, clock);
    RunKeepsInv(cfg, s, acts);
    assert StoredInv(e, id) && CauseInv(e, id);
    LogMatchesRun(cfg, s, acts, id);
    if id in e.gone {
      LeftForAReason(cfg, s, acts, id);
    }
  }

  /** No webhook is returned by two polls, however the polls interleave with anything else. */
  lemma {:induction false} NoWebhookIsPolledTwice(cfg: Config, s: State, first: Action, between: seq<Action>,
                                                  second: Action)
    requires Bounded(cfg) && Inv(cfg, s) && first.Poll? && second.Poll?
    requires IsRun(cfg, s, [first] + between + [second])
    ensures first.ids !! second.ids
  {
    var s' := Apply(cfg, s, first);
    assert ([first] + between + [second])[1..] == between + [second];
    RunSplits(cfg, s', between, [second]);
    StepKeepsInv(cfg, s, first);
    RunKeepsInv(cfg, s', between);
    var e := Run(cfg, s', between);
    forall id | id in first.ids ensures id !in e.table.rows {
      LogStays(cfg, s', between, id);
      assert StoredInv(e, id);
    }
  }

  // ---- duplicates ----

  function RetriesOf(s: State, id: nat): set<nat> {
    set task | task in s.started && s.started[task] == id
  }

  function AcceptedRetriesOf(s: State, id: nat): set<nat> {
    set task | task in s.accepted && task in s.started && s.started[task] == id
  }

  /** Duplicates: the forwarder delivers a webhook at most once more than its failed
      deletes and the restarts explain; a manual retry delivers at most once. */
  lemma {:induction false} DuplicateBound(cfg: Config, clock: nat, acts: seq<Action>, id: nat)
    requires Bounded(cfg) && IsRun(cfg, Initial(cfg, clock), acts)
    ensures var e := Run(cfg, Initial(cfg, clock), acts);
            && e.forwarded[id] <= 1 + e.failedDeletes[id] + e.restarts
            && |AcceptedRetriesOf(e, id)| <= |RetriesOf(e, id)|
            && e.forwarded[id] + |AcceptedRetriesOf(e, id)|
               <= 1 + e.failedDeletes[id] + e.restarts + |RetriesOf(e, id)|
  {
    var e := Run(cfg, Initial(cfg, clock), acts);
    InitialInv(cfg, clock);
    RunKeepsInv(cfg, Initial(cfg, clock), acts);
    assert DeliveriesInv(e, id);
    SubsetSize(AcceptedRetriesOf(e, id), RetriesOf(e, id));
  }

  function Delivery(cfg: Config, c: string): seq<Action>
    requires c in cfg
  {
    [Check(c), Peek(c, Found(1)), Respond(Forwarder(c), Response(cfg[c].expectedStatus, None), 0.0, "")]
  }

  /** One delivery whose delete fails, back to the top of the forwarder's loop. */
  function Redelivery(cfg: Config, c: string): seq<Action>
    requires c in cfg
  {
    Delivery(cfg, c) + [Forget(Forwarder(c), false), Wake(c)]
  }

  ghost predicate OnlyRowIs(s: State, c: string) {
    && At(s, c, Checking) && c !in s.paused && s.flights == map[] && s.started == map[] && s.restarts == 0
    && s.table.rows.Keys == {1} && s.table.rows[1].content.channel == c && s.table.rows[1].nextAt.None?
  }

  lemma {:induction false} RunOf(cfg: Config, s: State, a: Action, rest: seq<Action>)
    requires Enabled(cfg, s, a) && IsRun(cfg, Apply(cfg, s, a), rest)
    ensures IsRun(cfg, s, [a] + rest) && Run(cfg, s, [a] + rest) == Run(cfg, Apply(cfg, s, a), rest)
  {
    assert ([a] + rest)[1..] == rest;
  }

  /** A run of one action. */
  lemma {:induction false} RunOfOne(cfg: Config, s: State, a: Action)
    requires Enabled(cfg, s, a)
    ensures IsRun(cfg, s, [a]) && Run(cfg, s, [a]) == Apply(cfg, s, a)
  {
  }

  lemma {:induction false} DeliveryRuns(cfg: Config, s: State, c: string)
    requires c in cfg && OnlyRowIs(s, c)
    ensures IsRun(cfg, s, Delivery(cfg, c))
    ensures Run(cfg, s, Delivery(cfg, c)) == InHand(s, c)
  {
    var acts := Delivery(cfg, c);
    var s1 := s.(loops := s.loops[c := Peeking(s.clock)]);
    var s2 := s.(loops := s.loops[c := Flying], flights := map[Forwarder(c) := Sending(1, s.table.rows[1])]);
    assert Enabled(cfg, s, acts[0]) && Apply(cfg, s, acts[0]) == s1;
    PeekGives(cfg, s1, c);
    assert s1.loops[c := Flying] == s2.loops;
    RespondGives(cfg, s2, c);
    RunOfOne(cfg, s2, acts[2]);
    RunOf(cfg, s1, acts[1], [acts[2]]);
    RunOf(cfg, s, acts[0], [acts[1], acts[2]]);
    assert acts == [acts[0]] + ([acts[1]] + [acts[2]]);
  }

  function InHand(s: State, c: string): State
    requires 1 in s.table.rows
  {
    s.(loops := s.loops[c := Flying], forwarded := s.forwarded + multiset{1},
       flights := map[Forwarder(c) := Delivered(1, s.table.rows[1])])
  }

  lemma {:induction false} PeekGives(cfg: Config, s: State, c: string)
    requires c in s.loops && s.loops[c].Peeking? && s.flights == map[]
    requires s.table.rows.Keys == {1} && s.table.rows[1].content.channel == c && s.table.rows[1].nextAt.None?
    ensures Enabled(cfg, s, Peek(c, Found(1)))
    ensures Apply(cfg, s, Peek(c, Found(1)))
         == s.(loops := s.loops[c := Flying], flights := map[Forwarder(c) := Sending(1, s.table.rows[1])])
  {
  }

  lemma {:induction false} RespondGives(cfg: Config, s: State, c: string)
    requires c in cfg && 1 in s.table.rows && s.table.rows[1].content.channel == c
    requires s.flights == map[Forwarder(c) := Sending(1, s.table.rows[1])]
    ensures var a := Respond(Forwarder(c), Response(cfg[c].expectedStatus, None), 0.0, "");
            Enabled(cfg, s, a) &&
            Apply(cfg, s, a) == s.(forwarded := s.forwarded + multiset{1},
                                   flights := map[Forwarder(c) := Delivered(1, s.table.rows[1])])
  {
  }

  function AfterFailedDelete(s: State, c: string): State
    requires 1 in s.table.rows
  {
    InHand(s, c).(loops := s.loops[c := Sleeping], flights := map[], failedDeletes := s.failedDeletes + multiset{1})
  }

  lemma {:induction false} ForgetGives(cfg: Config, s: State, c: string)
    requires 1 in s.table.rows && c in s.loops
    ensures Enabled(cfg, InHand(s, c), Forget(Forwarder(c), false))
    ensures Apply(cfg, InHand(s, c), Forget(Forwarder(c), false)) == AfterFailedDelete(s, c)
  {
    assert s.loops[c := Flying][c := Sleeping] == s.loops[c := Sleeping];
  }

  lemma {:induction false} RedeliveryRuns(cfg: Config, s: State, c: string)
    requires c in cfg && OnlyRowIs(s, c)
    ensures IsRun(cfg, s, Redelivery(cfg, c))
    ensures var e := Run(cfg, s, Redelivery(cfg, c));
            && OnlyRowIs(e, c)
            && e.forwarded[1] == s.forwarded[1] + 1 && e.failedDeletes[1] == s.failedDeletes[1] + 1
  {
    var forget, wake := Forget(Forwarder(c), false), Wake(c);
    DeliveryRuns(cfg, s, c);
    ForgetGives(cfg, s, c);
    RunOfOne(cfg, AfterFailedDelete(s, c), wake);
    RunOf(cfg, InHand(s, c), forget, [wake]);
    assert [forget, wake] == [forget] + [wake];
    RunSplits(cfg, s, Delivery(cfg, c), [forget, wake]);
  }

  lemma {:induction false} RedeliveriesRun(cfg: Config, s: State, c: string, n: nat) returns (acts: seq<Action>)
    requires c in cfg && OnlyRowIs(s, c)
    ensures IsRun(cfg, s, acts)
    ensures var e := Run(cfg, s, acts);
            && OnlyRowIs(e, c)
            && e.forwarded[1] == s.forwarded[1] + n && e.failedDeletes[1] == s.failedDeletes[1] + n
    decreases n
  {
    acts := [];
    if n > 0 {
      RedeliveryRuns(cfg, s, c);
      var rest := RedeliveriesRun(cfg, Run(cfg, s, Redelivery(cfg, c)), c, n - 1);
      acts := Redelivery(cfg, c) + rest;
      RunSplits(cfg, s, Redelivery(cfg, c), rest);
    }
  }

  /** The bound is reached: for every number of failed deletes some run delivers a
      webhook exactly once more than that. */
  lemma {:induction false} DuplicateBoundIsReached(cfg: Config, clock: nat, c: string, n: nat)
    returns (acts: seq<Action>)
    requires c in cfg
    ensures IsRun(cfg, Initial(cfg, clock), acts)
    ensures var e := Run(cfg, Initial(cfg, clock), acts);
            e.forwarded[1] == 1 + n && e.failedDeletes[1] == n && e.restarts == 0 && RetriesOf(e, 1) == {}
  {
    var s := Initial(cfg, clock);
    var first := [Receive(1, Content(c, map[], [], clock))];
    RunOfOne(cfg, s, first[0]);
    var repeats := RedeliveriesRun(cfg, Run(cfg, s, first), c, n);
    acts := first + repeats + Delivery(cfg, c);
    RunSplits(cfg, s, first, repeats);
    DeliveryRuns(cfg, Run(cfg, s, first + repeats), c);
    RunSplits(cfg, s, first + repeats, Delivery(cfg, c));
  }

  // ---- stale writes ----

  /** A write after a send touches only the webhook that was sent, or nothing: all other
      rows keep every column, the row under the id still holds the content that was sent,
      and a failure record on a row that is gone leaves the whole table alone. */
  lemma {:induction false} StaleWritesAreSafe(cfg: Config, s: State, a: Action, id: nat)
    requires Bounded(cfg) && Inv(cfg, s) && Enabled(cfg, s, a) && (a.Forget? || a.Park?)
    ensures var f, t, t' := FlightOf(s, a.who), s.table, Apply(cfg, s, a).table;
            && f.id in s.received && f.sent.content == s.received[f.id]
            && (id != f.id ==> (id in t'.rows <==> id in t.rows) && (id in t.rows ==> t'.rows[id] == t.rows[id]))
            && (f.id in t.rows ==> t.rows[f.id].content == f.sent.content)
            && (f.id in t'.rows ==> f.id in t.rows && t'.rows[f.id].content == f.sent.content)
            && (f.id !in t.rows || !a.ok ==> t'.rows == t.rows)
            && t'.highWater == t.highWater
  {
    assert FlightInv(cfg, s, a.who);
    assert StoredInv(s, FlightOf(s, a.who).id);
  }

  /** An id is never used for two webhooks: what is received later gets another id. */
  lemma {:induction false} IdsAreNeverReused(cfg: Config, s: State, acts: seq<Action>, i: nat, j: nat)
    requires Bounded(cfg) && Inv(cfg, s) && IsRun(cfg, s, acts)
    requires i < j < |acts| && acts[i].Receive? && acts[j].Receive?
    ensures acts[i].id < acts[j].id
    decreases |acts|
  {
    var s' := Apply(cfg, s, acts[0]);
    StepKeepsInv(cfg, s, acts[0]);
    if i == 0 {
      IdsGrow(cfg, s', acts[1..], j - 1);
    } else {
      IdsAreNeverReused(cfg, s', acts[1..], i - 1, j - 1);
    }
  }

  lemma {:induction false} IdsGrow(cfg: Config, s: State, acts: seq<Action>, j: nat)
    requires IsRun(cfg, s, acts) && j < |acts| && acts[j].Receive?
    ensures s.table.highWater < acts[j].id
    decreases |acts|
  {
    if j > 0 {
      IdsGrow(cfg, Apply(cfg, s, acts[0]), acts[1..], j - 1);
    }
  }

  // ---- the bookkeeping columns ----

  /** In every reachable state the attempt counter is the number of recorded failures,
      the other columns are set exactly from the first one on, and no answer of a target
      parks a webhook beyond the ceiling. */
  lemma {:induction false} RowsKeepTheirShape(cfg: Config, clock: nat, acts: seq<Action>, id: nat)
    requires Bounded(cfg) && IsRun(cfg, Initial(cfg, clock), acts)
    ensures var e := Run(cfg, Initial(cfg, clock), acts);
            id in e.table.rows ==> RowInv(cfg, e.table.rows[id], e.recorded[id], e.clock)
  {
    var e := Run(cfg, Initial(cfg, clock), acts);
    InitialInv(cfg, clock);
    RunKeepsInv(cfg, Initial(cfg, clock), acts);
    assert BookkeepingInv(cfg, e, id);
  }

  // ---- no deadlock ----

  /** Wherever a run has led, every forwarder has a step to take. */
  lemma {:induction false} ForwarderIsNeverStuck(cfg: Config, s: State, c: string) returns (a: Action)
    requires Bounded(cfg) && Inv(cfg, s) && c in cfg
    ensures Enabled(cfg, s, a) && IsBy(a, Forwarder(c))
  {
    assert LoopInv(cfg, s, c) && FlightInv(cfg, s, Forwarder(c));
    match s.loops[c]
    case Checking => a := Check(c);
    case Sleeping => a := Wake(c);
    case Peeking(now) =>
      PeekIsTotal(s.table, c, now);
      if NothingDue(s.table, c, now) {
        a := Peek(c, Nothing);
      } else {
        var id :| IsOldestDue(s.table, c, now, id);
        a := Peek(c, Found(id));
      }
    case Flying =>
      match FlightOf(s, Forwarder(c))
      case Sending(_, _) => a := Respond(Forwarder(c), NetworkError, 0.0, "");
      case Delivered(_, _) => a := Forget(Forwarder(c), true);
      case Refused(_, _, refusedAt, _, _) => a := Park(Forwarder(c), true, refusedAt);
  }
}
