/** Blockades that happen: failing webhooks of one second, served in turn. */
module Rotation {
  import opened Sets
  import opened Backoff
  import opened Webhooks
  import opened Protocol
  import opened Spacing
  import opened Fairness
  import opened Picks
  import opened Blockades

  /** What the target answers to a webhook's attempts, by their number, and the jitter. */
  type Replies = nat -> (Answer, real)

  /** Each failure is permitted and, unless nothing of the n passes is left by then, its
      delay has passed when its webhook's turn comes again. */
  ghost predicate Lingers(target: Target, replies: Replies, refusals: Refusals, size: nat, gap: nat, n: int) {
    forall failure: nat :: 0 < failure ==>
      var (answer, unit) := replies(failure);
      && Permits(refusals, target, answer)
      && (Times(failure, size) < n ==>
            target.delay(KindOf(answer), failure, RequestedDelay(answer), unit) <= Times(size, gap))
  }

  /** The rivals in the order of their turns, all received in the second `born`; how many
      failures were recorded, and how many passes are left. */
  datatype Turns = Turns(order: seq<nat>, born: nat, done: nat, left: nat)

  /** The webhook `p` places from the front is due when its turn comes, the next pass being
      at `next`. */
  ghost predicate Placed(s: State, k: Blockade, t: Turns, p: nat, next: int)
    requires p < |t.order|
  {
    var id := t.order[p];
    && id in k.rivals && id in s.table.rows
    && var row := s.table.rows[id];
       && row.content.channel == k.channel && row.content.receivedAt == t.born
       && 0 <= row.attempts && Times(row.attempts, |t.order|) <= t.done + p
       && (p < t.left ==> Due(row, next + Times(p, k.gap)))
  }

  ghost predicate InTurn(s: State, k: Blockade, t: Turns, next: int) {
    forall p: nat :: p < |t.order| ==> Placed(s, k, t, p, next)
  }

  /** Nothing is older than the rivals, and the younger webhook is due behind them. */
  ghost predicate Scene(s: State, k: Blockade, t: Turns) {
    && k.channel !in s.paused && t.order != [] && Distinct(t.order) && t.left > 0
    && (forall id :: id in s.table.rows ==> t.born <= s.table.rows[id].content.receivedAt)
    && k.younger in s.table.rows && k.younger !in t.order
    && s.table.rows[k.younger].content.channel == k.channel && s.table.rows[k.younger].nextAt.None?
    && t.born < s.table.rows[k.younger].content.receivedAt
  }

  /** Where the forwarder is with the webhook whose turn it is. */
  ghost predicate Stands(s: State, k: Blockade, t: Turns, loop: Loop, next: int) {
    && Scene(s, k, t) && InTurn(s, k, t, next) && At(s, k.channel, loop)
    && if loop == Flying then
         s.flights.Keys == {Forwarder(k.channel)} && Carries(s, k.channel, t.order[0])
             && t.order[0] in s.table.rows && FlightOf(s, Forwarder(k.channel)).sent == s.table.rows[t.order[0]]
       else s.flights == map[]
  }

  ghost predicate Sends(s: State, k: Blockade) {
    InFlight(s, Forwarder(k.channel)) && FlightOf(s, Forwarder(k.channel)).Sending?
  }

  ghost predicate Refusing(s: State, k: Blockade, t: Turns) {
    && InFlight(s, Forwarder(k.channel)) && FlightOf(s, Forwarder(k.channel)).Refused?
    && FlightOf(s, Forwarder(k.channel)).refusedAt == s.clock
    && (|t.order| < t.left ==> FlightOf(s, Forwarder(k.channel)).nextAt <= s.clock + Times(|t.order|, k.gap))
  }

  /** The next pass is `gap` seconds after the last one. */
  predicate Follow(picks: seq<Pick>, gap: nat, next: int) {
    picks != [] ==> next == picks[|picks| - 1].at + gap
  }

  // ---- one step at a time ----

  lemma {:induction false} InTurnStays(s: State, s': State, k: Blockade, t: Turns, next: int, later: int)
    requires InTurn(s, k, t, next) && s'.table == s.table && next <= later
    ensures InTurn(s', k, t, later)
  {
    forall p: nat | p < |t.order| ensures Placed(s', k, t, p, later) {
      assert Placed(s, k, t, p, next);
    }
  }

  lemma {:induction false} Checks(cfg: Config, s: State, k: Blockade, t: Turns, picks: seq<Pick>)
    requires k.channel in cfg && Stands(s, k, t, Checking, s.clock)
    ensures var a := Check(k.channel);
            && Enabled(cfg, s, a) && Upholds(cfg, s, a, k, picks) && NextPicks(s, a, k.channel, picks) == picks
            && Apply(cfg, s, a).clock == s.clock && Stands(Apply(cfg, s, a), k, t, Peeking(s.clock), s.clock)
  {
    var a := Check(k.channel);
    QuietStep(cfg, s, a);
    InTurnStays(s, Apply(cfg, s, a), k, t, s.clock, s.clock);
  }

  lemma {:induction false} Peeks(cfg: Config, s: State, k: Blockade, t: Turns, picks: seq<Pick>)
    requires k.channel in cfg && Stands(s, k, t, Peeking(s.clock), s.clock) && Follow(picks, k.gap, s.clock)
    ensures var a := Peek(k.channel, Found(t.order[0]));
            && Enabled(cfg, s, a) && Upholds(cfg, s, a, k, picks)
            && NextPicks(s, a, k.channel, picks) == picks + [Pick(t.order[0], s.clock, false)]
            && Apply(cfg, s, a).clock == s.clock
            && Stands(Apply(cfg, s, a), k, t, Flying, s.clock) && Sends(Apply(cfg, s, a), k)
  {
    var a := Peek(k.channel, Found(t.order[0]));
    assert Placed(s, k, t, 0, s.clock);
    assert IsOldestDue(s.table, k.channel, s.clock, t.order[0]);
    QuietStep(cfg, s, a);
    InTurnStays(s, Apply(cfg, s, a), k, t, s.clock, s.clock);
  }

  lemma {:induction false} Refuses(cfg: Config, s: State, k: Blockade, t: Turns, picks: seq<Pick>, replies: Replies)
    requires k.channel in cfg && Stands(s, k, t, Flying, s.clock) && Sends(s, k)
    requires Lingers(cfg[k.channel], replies, k.refusals, |t.order|, k.gap, t.done + t.left)
    ensures Placed(s, k, t, 0, s.clock)
    ensures var (answer, unit) := replies(s.table.rows[t.order[0]].attempts + 1);
            var a := Respond(Forwarder(k.channel), answer, unit, "");
            && Enabled(cfg, s, a) && Upholds(cfg, s, a, k, picks) && NextPicks(s, a, k.channel, picks) == picks
            && Apply(cfg, s, a).clock == s.clock
            && Stands(Apply(cfg, s, a), k, t, Flying, s.clock) && Refusing(Apply(cfg, s, a), k, t)
  {
    assert Placed(s, k, t, 0, s.clock);
    var (answer, unit) := replies(s.table.rows[t.order[0]].attempts + 1);
    var a := Respond(Forwarder(k.channel), answer, unit, "");
    QuietStep(cfg, s, a);
    InTurnStays(s, Apply(cfg, s, a), k, t, s.clock, s.clock);
  }

  /** The webhook that failed goes to the end of the line. */
  function Rotate(t: Turns): Turns
    requires t.order != [] && t.left > 0
  {
    Turns(t.order[1..] + [t.order[0]], t.born, t.done + 1, t.left - 1)
  }

  lemma {:induction false} Rotates(cfg: Config, s: State, k: Blockade, t: Turns, p: nat)
    requires k.channel in cfg && Stands(s, k, t, Flying, s.clock) && Refusing(s, k, t) && p < |t.order|
    ensures Placed(Apply(cfg, s, Park(Forwarder(k.channel), true, s.clock)), k, Rotate(t), p, s.clock + k.gap)
  {
    if p + 1 < |t.order| {
      assert Placed(s, k, t, p + 1, s.clock);
    } else {
      assert Placed(s, k, t, 0, s.clock);
    }
  }

  lemma {:induction false} Parks(cfg: Config, s: State, k: Blockade, t: Turns, picks: seq<Pick>)
    requires k.channel in cfg && Stands(s, k, t, Flying, s.clock) && Refusing(s, k, t) && t.left > 1
    ensures var a := Park(Forwarder(k.channel), true, s.clock);
            && Enabled(cfg, s, a) && Upholds(cfg, s, a, k, picks) && Apply(cfg, s, a).clock == s.clock
            && Stands(Apply(cfg, s, a), k, Rotate(t), Sleeping, s.clock + k.gap)
  {
    var s', turned, next := Apply(cfg, s, Park(Forwarder(k.channel), true, s.clock)), Rotate(t), s.clock + k.gap;
    forall p: nat | p < |turned.order| ensures Placed(s', k, turned, p, next) {
      Rotates(cfg, s, k, t, p);
    }
  }

  lemma {:induction false} LosesRecord(cfg: Config, s: State, k: Blockade, t: Turns, picks: seq<Pick>)
    requires k.channel in cfg && Stands(s, k, t, Flying, s.clock) && Refusing(s, k, t) && !k.faults.Deaths?
    ensures var a := Park(Forwarder(k.channel), false, s.clock);
            && Enabled(cfg, s, a) && Upholds(cfg, s, a, k, picks) && NextPicks(s, a, k.channel, picks) == picks
            && Apply(cfg, s, a).clock == s.clock && Stands(Apply(cfg, s, a), k, t, Sleeping, s.clock + k.gap)
  {
    InTurnStays(s, Apply(cfg, s, Park(Forwarder(k.channel), false, s.clock)), k, t, s.clock, s.clock + k.gap);
  }

  lemma {:induction false} Dies(cfg: Config, s: State, k: Blockade, t: Turns, picks: seq<Pick>)
    requires k.channel in cfg && Stands(s, k, t, Flying, s.clock) && k.faults.Deaths?
    ensures Upholds(cfg, s, Restart, k, picks) && NextPicks(s, Restart, k.channel, picks) == picks
    ensures Apply(cfg, s, Restart).clock == s.clock
    ensures Stands(Apply(cfg, s, Restart), k, t, Checking, s.clock + k.gap)
  {
    InTurnStays(s, Apply(cfg, s, Restart), k, t, s.clock, s.clock + k.gap);
  }

  lemma {:induction false} Waits(cfg: Config, s: State, k: Blockade, t: Turns, picks: seq<Pick>, loop: Loop)
    requires k.channel in cfg && loop != Flying && Stands(s, k, t, loop, s.clock + k.gap)
    ensures var a := Tick(k.gap);
            && Upholds(cfg, s, a, k, picks) && NextPicks(s, a, k.channel, picks) == picks
            && Apply(cfg, s, a).clock == s.clock + k.gap && Stands(Apply(cfg, s, a), k, t, loop, s.clock + k.gap)
  {
    TickStep(cfg, s, k.gap);
    InTurnStays(s, Apply(cfg, s, Tick(k.gap)), k, t, s.clock + k.gap, s.clock + k.gap);
  }

  lemma {:induction false} Wakes(cfg: Config, s: State, k: Blockade, t: Turns, picks: seq<Pick>)
    requires k.channel in cfg && Stands(s, k, t, Sleeping, s.clock)
    ensures var a := Wake(k.channel);
            && Enabled(cfg, s, a) && Upholds(cfg, s, a, k, picks) && NextPicks(s, a, k.channel, picks) == picks
            && Apply(cfg, s, a).clock == s.clock && Stands(Apply(cfg, s, a), k, t, Checking, s.clock)
  {
    QuietStep(cfg, s, Wake(k.channel));
    InTurnStays(s, Apply(cfg, s, Wake(k.channel)), k, t, s.clock, s.clock);
  }

  lemma {:induction false} GoesThen(cfg: Config, s: State, a: Action, rest: seq<Action>, k: Blockade, picks: seq<Pick>,
                                    n: nat, fails: nat, until: nat)
    requires k.channel in cfg && Enabled(cfg, s, a) && Upholds(cfg, s, a, k, picks)
    requires Goes(cfg, Apply(cfg, s, a), rest, k, NextPicks(s, a, k.channel, picks), n, fails, until)
    ensures Goes(cfg, s, [a] + rest, k, picks, n + (if Passes(a, k.channel) then 1 else 0),
                 fails + (if Fails(a, k.channel) then 1 else 0), until)
  {
    assert ([a] + rest)[1..] == rest;
  }

  // ---- passes in a row ----

  /** From the top of the loop on, `faults` passes come to nothing and the others take turns. */
  lemma {:induction false} PassesOn(cfg: Config, s: State, k: Blockade, t: Turns, faults: nat, picks: seq<Pick>,
                                    replies: Replies, until: nat) returns (acts: seq<Action>)
    requires k.channel in cfg && Stands(s, k, t, Checking, s.clock) && Follow(picks, k.gap, s.clock)
    requires Lingers(cfg[k.channel], replies, k.refusals, |t.order|, k.gap, t.done + t.left)
    requires s.clock + Times(faults + t.left, k.gap) <= until
    ensures Goes(cfg, s, acts, k, picks, faults + t.left, faults, until)
    decreases faults + t.left, 1
  {
    var check := Check(k.channel);
    Checks(cfg, s, k, t, picks);
    var rest := PeeksOn(cfg, Apply(cfg, s, check), k, t, faults, picks, replies, until);
    GoesThen(cfg, s, check, rest, k, picks, faults + t.left, faults, until);
    acts := [check] + rest;
  }

  lemma {:induction false} PeeksOn(cfg: Config, s: State, k: Blockade, t: Turns, faults: nat, picks: seq<Pick>,
                                   replies: Replies, until: nat) returns (acts: seq<Action>)
    requires k.channel in cfg && Stands(s, k, t, Peeking(s.clock), s.clock) && Follow(picks, k.gap, s.clock)
    requires Lingers(cfg[k.channel], replies, k.refusals, |t.order|, k.gap, t.done + t.left)
    requires s.clock + Times(faults + t.left, k.gap) <= until
    ensures Goes(cfg, s, acts, k, picks, faults + t.left, faults, until)
    decreases faults + t.left, 0
  {
    var peek := Peek(k.channel, Found(t.order[0]));
    Peeks(cfg, s, k, t, picks);
    var next := picks + [Pick(t.order[0], s.clock, false)];
    var rest := AnswersOn(cfg, Apply(cfg, s, peek), k, t, faults, next, replies, until);
    GoesThen(cfg, s, peek, rest, k, picks, faults + t.left - 1, faults, until);
    acts := [peek] + rest;
  }

  lemma {:induction false} AnswersOn(cfg: Config, s: State, k: Blockade, t: Turns, faults: nat, picks: seq<Pick>,
                                     replies: Replies, until: nat) returns (acts: seq<Action>)
    requires k.channel in cfg && Stands(s, k, t, Flying, s.clock) && Sends(s, k)
    requires Follow(picks, k.gap, s.clock + k.gap) && picks != []
    requires Lingers(cfg[k.channel], replies, k.refusals, |t.order|, k.gap, t.done + t.left)
    requires s.clock + Times(faults + t.left, k.gap) <= until
    ensures Goes(cfg, s, acts, k, picks, faults + t.left - 1, faults, until)
    decreases faults + t.left - 1, 5
  {
    acts := [];
    if faults > 0 && k.faults.Deaths? {
      acts := DiesOn(cfg, s, k, t, faults, picks, replies, until);
    } else if faults + t.left > 1 {
      Refuses(cfg, s, k, t, picks, replies);
      var (answer, unit) := replies(s.table.rows[t.order[0]].attempts + 1);
      var respond := Respond(Forwarder(k.channel), answer, unit, "");
      var rest := RecordsOn(cfg, Apply(cfg, s, respond), k, t, faults, picks, replies, until);
      GoesThen(cfg, s, respond, rest, k, picks, faults + t.left - 1, faults, until);
      acts := [respond] + rest;
    }
  }

  lemma {:induction false} DiesOn(cfg: Config, s: State, k: Blockade, t: Turns, faults: nat, picks: seq<Pick>,
                                  replies: Replies, until: nat) returns (acts: seq<Action>)
    requires k.channel in cfg && Stands(s, k, t, Flying, s.clock) && k.faults.Deaths? && faults > 0
    requires Follow(picks, k.gap, s.clock + k.gap)
    requires Lingers(cfg[k.channel], replies, k.refusals, |t.order|, k.gap, t.done + t.left)
    requires s.clock + Times(faults + t.left, k.gap) <= until
    ensures Goes(cfg, s, acts, k, picks, faults + t.left - 1, faults, until)
    decreases faults + t.left - 1, 4
  {
    Dies(cfg, s, k, t, picks);
    var rest := TicksOn(cfg, Apply(cfg, s, Restart), k, t, Checking, faults - 1, picks, replies, until);
    GoesThen(cfg, s, Restart, rest, k, picks, faults + t.left - 1, faults - 1, until);
    acts := [Restart] + rest;
  }

  lemma {:induction false} RecordsOn(cfg: Config, s: State, k: Blockade, t: Turns, faults: nat, picks: seq<Pick>,
                                     replies: Replies, until: nat) returns (acts: seq<Action>)
    requires k.channel in cfg && Stands(s, k, t, Flying, s.clock) && Refusing(s, k, t)
    requires Follow(picks, k.gap, s.clock + k.gap) && picks != [] && faults + t.left > 1
    requires Lingers(cfg[k.channel], replies, k.refusals, |t.order|, k.gap, t.done + t.left)
    requires (faults > 0 ==> !k.faults.Deaths?) && s.clock + Times(faults + t.left, k.gap) <= until
    ensures Goes(cfg, s, acts, k, picks, faults + t.left - 1, faults, until)
    decreases faults + t.left - 1, 4
  {
    var park, rest := Park(Forwarder(k.channel), faults == 0, s.clock), [];
    var s', next := Apply(cfg, s, park), NextPicks(s, park, k.channel, picks);
    if faults == 0 {
      Parks(cfg, s, k, t, picks);
      rest := TicksOn(cfg, s', k, Rotate(t), Sleeping, 0, next, replies, until);
    } else {
      LosesRecord(cfg, s, k, t, picks);
      rest := TicksOn(cfg, s', k, t, Sleeping, faults - 1, next, replies, until);
    }
    GoesThen(cfg, s, park, rest, k, picks, faults + t.left - 1, if faults == 0 then 0 else faults - 1, until);
    acts := [park] + rest;
  }

  lemma {:induction false} TicksOn(cfg: Config, s: State, k: Blockade, t: Turns, loop: Loop, faults: nat,
                                   picks: seq<Pick>, replies: Replies, until: nat) returns (acts: seq<Action>)
    requires k.channel in cfg && (loop == Checking || loop == Sleeping) && Stands(s, k, t, loop, s.clock + k.gap)
    requires Follow(picks, k.gap, s.clock + k.gap)
    requires Lingers(cfg[k.channel], replies, k.refusals, |t.order|, k.gap, t.done + t.left)
    requires s.clock + Times(faults + t.left + 1, k.gap) <= until
    ensures Goes(cfg, s, acts, k, picks, faults + t.left, faults, until)
    decreases faults + t.left, 3
  {
    var tick := Tick(k.gap);
    Waits(cfg, s, k, t, picks, loop);
    var s', rest := Apply(cfg, s, tick), [];
    if loop == Sleeping {
      rest := WakesOn(cfg, s', k, t, faults, picks, replies, until);
    } else {
      rest := PassesOn(cfg, s', k, t, faults, picks, replies, until);
    }
    GoesThen(cfg, s, tick, rest, k, picks, faults + t.left, faults, until);
    acts := [tick] + rest;
  }

  lemma {:induction false} WakesOn(cfg: Config, s: State, k: Blockade, t: Turns, faults: nat, picks: seq<Pick>,
                                   replies: Replies, until: nat) returns (acts: seq<Action>)
    requires k.channel in cfg && Stands(s, k, t, Sleeping, s.clock) && Follow(picks, k.gap, s.clock)
    requires Lingers(cfg[k.channel], replies, k.refusals, |t.order|, k.gap, t.done + t.left)
    requires s.clock + Times(faults + t.left, k.gap) <= until
    ensures Goes(cfg, s, acts, k, picks, faults + t.left, faults, until)
    decreases faults + t.left, 2
  {
    var wake := Wake(k.channel);
    Wakes(cfg, s, k, t, picks);
    var rest := PassesOn(cfg, Apply(cfg, s, wake), k, t, faults, picks, replies, until);
    GoesThen(cfg, s, wake, rest, k, picks, faults + t.left, faults, until);
    acts := [wake] + rest;
  }

  // ---- the webhooks arrive ----

  function First(c: string, clock: nat): Content {
    Content(c, map[], [], clock)
  }

  /** So many webhooks have arrived in the second `born`, and nothing else has happened. */
  ghost predicate Gathered(s: State, k: Blockade, size: nat, order: seq<nat>, born: nat) {
    && At(s, k.channel, Checking) && s.flights == map[] && k.channel !in s.paused
    && s.clock == born && s.table.highWater == |order| <= size && Distinct(order)
    && (forall i :: 0 <= i < |order| ==> order[i] in s.table.rows && order[i] in k.rivals && order[i] != k.younger)
    && (forall id :: id in s.table.rows ==> id <= |order| && s.table.rows[id] == FreshRow(First(k.channel, born)))
  }

  lemma {:induction false} Arrives(cfg: Config, s: State, k: Blockade, picks: seq<Pick>, id: nat, content: Content)
    requires k.channel in cfg && id > s.table.highWater && content.channel == k.channel
    ensures Enabled(cfg, s, Receive(id, content)) && Upholds(cfg, s, Receive(id, content), k, picks)
    ensures NextPicks(s, Receive(id, content), k.channel, picks) == picks
    ensures Apply(cfg, s, Receive(id, content))
         == s.(table := Insert(s.table, id, content), received := s.received[id := content])
  {
  }

  /** The younger webhook arrives a second after the rivals. */
  function AfterYounger(s: State, k: Blockade): State {
    var content := First(k.channel, s.clock + 1);
    s.(clock := s.clock + 1, table := Insert(s.table, k.younger, content),
       received := s.received[k.younger := content])
  }

  lemma {:induction false} YoungerStands(cfg: Config, s: State, k: Blockade, order: seq<nat>, left: nat)
    requires k.channel in cfg && Gathered(s, k, |order|, order, s.clock) && k.younger == |order| + 1
    requires order != [] && left > 0
    ensures Stands(AfterYounger(s, k), k, Turns(order, s.clock, 0, left), Checking, s.clock + 1)
  {
    var s', t, next := AfterYounger(s, k), Turns(order, s.clock, 0, left), s.clock + 1;
    forall p: nat | p < |t.order| ensures Placed(s', k, t, p, next) {
      assert order[p] in s.table.rows;
    }
  }

  lemma {:induction false} YoungerArrives(cfg: Config, s: State, k: Blockade, rest: seq<Action>, n: nat, fails: nat,
                                          until: nat) returns (acts: seq<Action>)
    requires k.channel in cfg && s.table.highWater < k.younger
    requires Goes(cfg, AfterYounger(s, k), rest, k, [], n, fails, until)
    ensures Goes(cfg, s, acts, k, [], n, fails, until)
  {
    var s1 := s.(clock := s.clock + 1);
    var receive := Receive(k.younger, First(k.channel, s1.clock));
    TickStep(cfg, s, 1);
    Arrives(cfg, s1, k, [], k.younger, receive.content);
    assert Apply(cfg, s1, receive) == AfterYounger(s, k);
    GoesThen(cfg, s1, receive, rest, k, [], n, fails, until);
    GoesThen(cfg, s, Tick(1), [receive] + rest, k, [], n, fails, until);
    acts := [Tick(1)] + ([receive] + rest);
  }

  lemma {:induction false} RivalsArrive(cfg: Config, s: State, k: Blockade, size: nat, order: seq<nat>, n: nat,
                                        faults: nat, replies: Replies, until: nat) returns (acts: seq<Action>)
    requires k.channel in cfg && Gathered(s, k, size, order, s.clock) && k.younger == size + 1 && size > 0
    requires forall id :: id in k.rivals <==> 0 < id <= size
    requires n > faults && s.clock + 1 + Times(n, k.gap) <= until
    requires Lingers(cfg[k.channel], replies, k.refusals, size, k.gap, n - faults)
    ensures Goes(cfg, s, acts, k, [], n, faults, until)
    decreases size - |order|
  {
    if |order| == size {
      var t := Turns(order, s.clock, 0, n - faults);
      YoungerStands(cfg, s, k, order, n - faults);
      var rest := PassesOn(cfg, AfterYounger(s, k), k, t, faults, [], replies, until);
      acts := YoungerArrives(cfg, s, k, rest, n, faults, until);
    } else {
      var id := |order| + 1;
      var receive := Receive(id, First(k.channel, s.clock));
      Arrives(cfg, s, k, [], id, receive.content);
      var rest := RivalsArrive(cfg, Apply(cfg, s, receive), k, size, order + [id], n, faults, replies, until);
      GoesThen(cfg, s, receive, rest, k, [], n, faults, until);
      acts := [receive] + rest;
    }
  }

  function UpTo(size: nat): set<nat> {
    if size == 0 then {} else UpTo(size - 1) + {size}
  }

  lemma {:induction false} UpToSize(size: nat)
    ensures |UpTo(size)| == size && forall id :: id in UpTo(size) <==> 0 < id <= size
  {
    if size > 0 {
      UpToSize(size - 1);
    }
  }

  /** From an empty table on, webhooks of one second block the channel for any number of
      passes whose failures linger, the first few of which come to nothing. */
  lemma {:induction false} LingeringBlocks(cfg: Config, clock: nat, c: string, plan: Plan, n: nat, faults: nat,
                                           replies: Replies, until: nat)
    requires c in cfg && plan.size > 0 && faults <= plan.fails && (n == 0 || faults < n)
    requires Lingers(cfg[c], replies, plan.refusals, plan.size, plan.gap, n - faults)
    requires clock + 1 + Times(n, plan.gap) <= until && until + cfg[c].max < TWO_TO_63
    ensures CanBlock(cfg, clock, c, plan, n)
  {
    var rivals, younger := UpTo(plan.size), plan.size + 1;
    var k, s, acts := Blockade(c, rivals, younger, plan.gap, plan.refusals, plan.faults), Initial(cfg, clock), [];
    UpToSize(plan.size);
    if n > 0 {
      assert Gathered(s, k, plan.size, [], clock);
      acts := RivalsArrive(cfg, s, k, plan.size, [], n, faults, replies, until);
    }
    assert |rivals| <= plan.size && until + cfg[c].max < TWO_TO_63
        && Goes(cfg, Initial(cfg, clock), acts, k, [], n, plan.fails, until);
  }
}
