/** Start-up migration (src/lib/outbound/sqlite/init.rs), run by any number of instances
    at once against one database: each creates the table unless it is there, reads its
    columns and adds those it did not see. */
module Migration {
  import opened Wrappers
  import opened Sets

  const BASE_COLUMNS: seq<string> := ["id", "channel", "headers", "payload", "received_at"]

  const ADDED_COLUMNS: seq<string> := ["forward_attempts", "last_attempt_at", "last_attempt_error", "next_attempt_at"]

  /** How far an instance has come; `existing` is what it read. */
  datatype Stage = Creating | Reading | Adding(existing: set<string>, next: nat) | Done | Failed

  /** The columns of `webhooks`, if the table exists, the instances, and the ALTERs each
      has issued. */
  datatype State = State(columns: Option<seq<string>>, stages: map<nat, Stage>, issued: map<nat, seq<string>>)

  /** The statements an instance runs. One that is not `ok` fails for good, because the
      database stayed locked or broke. */
  datatype Action =
    | Create(who: nat, ok: bool)
    | Read(who: nat, ok: bool)
    | Column(who: nat, ok: bool)

  function Initial(columns: Option<seq<string>>, instances: set<nat>): State {
    State(columns, map i | i in instances :: Creating, map i | i in instances :: [])
  }

  function AsSet(columns: seq<string>): set<string> {
    set name | name in columns
  }

  /** What the table starts from: what was there, or the columns of a new one. */
  function Start(columns: Option<seq<string>>): seq<string> {
    if columns.Some? then columns.value else BASE_COLUMNS
  }

  predicate Enabled(s: State, a: Action) {
    && a.who in s.stages && a.who in s.issued
    && match a
       case Create(i, _) => s.stages[i] == Creating
       case Read(i, _) => s.stages[i] == Reading && s.columns.Some?
       case Column(i, _) => s.stages[i].Adding? && s.stages[i].next < |ADDED_COLUMNS| && s.columns.Some?
  }

  /** The column the instance turns to, and whether it leaves it alone. */
  function NextColumn(s: State, i: nat): string
    requires i in s.stages && s.stages[i].Adding? && s.stages[i].next < |ADDED_COLUMNS|
  {
    ADDED_COLUMNS[s.stages[i].next]
  }

  predicate Skips(s: State, i: nat)
    requires i in s.stages && s.stages[i].Adding? && s.stages[i].next < |ADDED_COLUMNS|
  {
    NextColumn(s, i) in s.stages[i].existing
  }

  /** ALTER TABLE ADD COLUMN: an error, and no change, if the column is there. */
  function Altered(columns: seq<string>, name: string): seq<string> {
    if name in columns then columns else columns + [name]
  }

  function Advanced(existing: set<string>, next: nat): Stage {
    if next + 1 < |ADDED_COLUMNS| then Adding(existing, next + 1) else Done
  }

  function Apply(s: State, a: Action): State
    requires Enabled(s, a)
  {
    match a
    case Create(i, ok) =>
      if ok then s.(columns := Some(Start(s.columns)), stages := s.stages[i := Reading])
      else s.(stages := s.stages[i := Failed])
    case Read(i, ok) =>
      s.(stages := s.stages[i := if ok then Adding(AsSet(s.columns.value), 0) else Failed])
    case Column(i, ok) =>
      var stage := s.stages[i];
      var moved := s.(stages := s.stages[i := Advanced(stage.existing, stage.next)]);
      if Skips(s, i) then moved
      else
        var name := NextColumn(s, i);
        var issued := s.issued[i := s.issued[i] + [name]];
        // "duplicate column" is tolerated
        if ok then moved.(columns := Some(Altered(s.columns.value, name)), issued := issued)
        else s.(stages := s.stages[i := Failed], issued := issued)
  }

  predicate IsRun(s: State, acts: seq<Action>)
    decreases |acts|
  {
    acts == [] || (Enabled(s, acts[0]) && IsRun(Apply(s, acts[0]), acts[1..]))
  }

  function Run(s: State, acts: seq<Action>): State
    requires IsRun(s, acts)
    decreases |acts|
  {
    if acts == [] then s else Run(Apply(s, acts[0]), acts[1..])
  }

  lemma {:induction false} RunAppends(s: State, acts: seq<Action>, a: Action)
    requires IsRun(s, acts) && Enabled(Run(s, acts), a)
    ensures IsRun(s, acts + [a]) && Run(s, acts + [a]) == Apply(Run(s, acts), a)
    decreases |acts|
  {
    if acts == [] {
      assert acts + [a] == [a];
    } else {
      RunAppends(Apply(s, acts[0]), acts[1..], a);
      assert (acts + [a])[1..] == acts[1..] + [a];
    }
  }

  // ---- what every interleaving keeps ----

  /** The table has only grown, by added columns, and has no column twice. */
  ghost predicate Grown(start: seq<string>, columns: seq<string>) {
    && start <= columns && Distinct(columns)
    && forall k :: |start| <= k < |columns| ==> columns[k] in ADDED_COLUMNS
  }

  ghost predicate StageInv(s: State, i: nat) {
    && (i in s.stages <==> i in s.issued)
    && (i in s.stages ==>
          match s.stages[i]
          case Creating => s.issued[i] == []
          case Reading => s.columns.Some? && s.issued[i] == []
          case Adding(existing, next) =>
            && s.columns.Some? && next < |ADDED_COLUMNS|
            && (forall name :: name in existing ==> name in s.columns.value)
            && (forall k :: 0 <= k < next ==> ADDED_COLUMNS[k] in s.columns.value)
            && s.issued[i] == Missing(existing, next)
          case Done => s.columns.Some? && (forall k :: 0 <= k < |ADDED_COLUMNS| ==> ADDED_COLUMNS[k] in s.columns.value)
          case Failed => true)
  }

  /** The first `n` names, without those in `existing`. */
  function Lacking(names: seq<string>, existing: set<string>, n: nat): seq<string>
    requires n <= |names|
  {
    if n == 0 then []
    else Lacking(names, existing, n - 1) + if names[n - 1] in existing then [] else [names[n - 1]]
  }

  function Missing(existing: set<string>, n: nat): seq<string>
    requires n <= |ADDED_COLUMNS|
  {
    Lacking(ADDED_COLUMNS, existing, n)
  }

  ghost predicate Inv(start: seq<string>, s: State) {
    && (s.columns.Some? ==> Grown(start, s.columns.value))
    && (s.columns.None? ==> start == BASE_COLUMNS)
    && forall i :: StageInv(s, i)
  }

  lemma {:induction false} InitialInv(columns: Option<seq<string>>, instances: set<nat>)
    requires columns.Some? ==> Distinct(columns.value)
    ensures Inv(Start(columns), Initial(columns, instances))
  {
  }

  lemma {:induction false} ColumnsStep(start: seq<string>, s: State, a: Action)
    requires Inv(start, s) && Enabled(s, a)
    ensures var s' := Apply(s, a);
            && (s.columns.Some? ==> s'.columns.Some? && s.columns.value <= s'.columns.value)
            && (s'.columns.Some? ==> Grown(start, s'.columns.value))
  {
    assert Distinct(BASE_COLUMNS);
  }

  lemma {:induction false} StageStep(start: seq<string>, s: State, a: Action, i: nat)
    requires Inv(start, s) && Enabled(s, a)
    ensures StageInv(Apply(s, a), i)
  {
    var s' := Apply(s, a);
    ColumnsStep(start, s, a);
    assert StageInv(s, i) && StageInv(s, a.who);
    if s.columns.Some? {
      assert forall name :: name in s.columns.value ==> name in s'.columns.value;
    }
  }

  lemma {:induction false} StepKeepsInv(start: seq<string>, s: State, a: Action)
    requires Inv(start, s) && Enabled(s, a)
    ensures Inv(start, Apply(s, a))
  {
    ColumnsStep(start, s, a);
    forall i ensures StageInv(Apply(s, a), i) {
      StageStep(start, s, a, i);
    }
  }

  lemma {:induction false} RunKeepsInv(start: seq<string>, s: State, acts: seq<Action>)
    requires Inv(start, s) && IsRun(s, acts)
    ensures Inv(start, Run(s, acts))
    ensures s.columns.Some? ==> Run(s, acts).columns.Some? && s.columns.value <= Run(s, acts).columns.value
    decreases |acts|
  {
    if acts != [] {
      ColumnsStep(start, s, acts[0]);
      StepKeepsInv(start, s, acts[0]);
      RunKeepsInv(start, Apply(s, acts[0]), acts[1..]);
    }
  }

  // ---- nobody fails because of somebody else ----

  predicate AllSucceed(acts: seq<Action>, i: nat) {
    acts == [] || ((acts[0].who == i ==> acts[0].ok) && AllSucceed(acts[1..], i))
  }

  lemma {:induction false} OnlyOwnFailures(s: State, acts: seq<Action>, i: nat)
    requires IsRun(s, acts) && AllSucceed(acts, i)
    requires i in s.stages && s.stages[i] != Failed
    ensures i in Run(s, acts).stages && Run(s, acts).stages[i] != Failed
    decreases |acts|
  {
    if acts != [] {
      OnlyOwnFailures(Apply(s, acts[0]), acts[1..], i);
    }
  }

  /** The statements left to an instance. */
  function Remaining(stage: Stage): nat {
    match stage
    case Creating => 2 + |ADDED_COLUMNS|
    case Reading => 1 + |ADDED_COLUMNS|
    case Adding(_, next) => if next < |ADDED_COLUMNS| then |ADDED_COLUMNS| - next else 0
    case _ => 0
  }

  function OwnSteps(acts: seq<Action>, i: nat): nat {
    if acts == [] then 0 else (if acts[0].who == i then 1 else 0) + OwnSteps(acts[1..], i)
  }

  lemma {:induction false} StepsCount(s: State, acts: seq<Action>, i: nat)
    requires IsRun(s, acts) && i in s.stages
    ensures i in Run(s, acts).stages
    ensures OwnSteps(acts, i) + Remaining(Run(s, acts).stages[i]) <= Remaining(s.stages[i])
    ensures AllSucceed(acts, i) ==> OwnSteps(acts, i) + Remaining(Run(s, acts).stages[i]) == Remaining(s.stages[i])
    decreases |acts|
  {
    if acts != [] {
      StepsCount(Apply(s, acts[0]), acts[1..], i);
    }
  }

  lemma {:induction false} NeverStuck(start: seq<string>, s: State, i: nat, ok: bool) returns (a: Action)
    requires Inv(start, s) && i in s.stages && Remaining(s.stages[i]) > 0
    ensures a.who == i && a.ok == ok && Enabled(s, a)
  {
    assert StageInv(s, i);
    match s.stages[i]
    case Creating => a := Create(i, ok);
    case Reading => a := Read(i, ok);
    case Adding(_, _) => a := Column(i, ok);
  }

  /** Concurrent migration: in every interleaving of any number of instances the table only
      grows, by columns of the release and never one twice. An instance none of whose own
      statements fails is never failed by the others, always has a next statement until
      it is done, is done after its sixth and then finds every added column in place. */
  lemma {:induction false} MigrationIsSafe(columns: Option<seq<string>>, instances: set<nat>, acts: seq<Action>, i: nat)
    requires columns.Some? ==> Distinct(columns.value)
    requires IsRun(Initial(columns, instances), acts) && i in instances
    ensures var e := Run(Initial(columns, instances), acts);
            && Inv(Start(columns), e) && i in e.stages
            && (e.columns.Some? ==> Grown(Start(columns), e.columns.value))
            && (AllSucceed(acts, i) ==>
                  && e.stages[i] != Failed
                  && (e.stages[i] == Done <==> OwnSteps(acts, i) == 6)
                  && OwnSteps(acts, i) <= 6)
            && (e.stages[i] == Done ==>
                  && e.columns.Some?
                  && (forall name :: name in e.columns.value <==>
                        IsAdded(name) || if columns.Some? then name in columns.value else IsBase(name))
                  && multiset(e.columns.value) == multiset(Start(columns)) + multiset(Added(Start(columns))))
  {
    var s, e := Initial(columns, instances), Run(Initial(columns, instances), acts);
    InitialInv(columns, instances);
    RunKeepsInv(Start(columns), s, acts);
    assert StageInv(e, i);
    StepsCount(s, acts, i);
    if AllSucceed(acts, i) {
      OnlyOwnFailures(s, acts, i);
    }
    if e.stages[i] == Done {
      EndsComplete(Start(columns), e.columns.value);
      AddedColumnsAre(e.columns.value);
    }
  }

  /** The columns of a table that is created anew. */
  predicate IsBase(name: string) {
    name in {"id", "channel", "headers", "payload", "received_at"}
  }

  /** The columns this release adds. */
  predicate IsAdded(name: string) {
    name in {"forward_attempts", "last_attempt_at", "last_attempt_error", "next_attempt_at"}
  }

  lemma {:induction false} AddedColumnsAre(columns: seq<string>)
    requires forall k :: 0 <= k < |ADDED_COLUMNS| ==> ADDED_COLUMNS[k] in columns
    ensures forall name :: IsAdded(name) ==> name in columns
    ensures forall name :: name in ADDED_COLUMNS <==> IsAdded(name)
    ensures forall name :: name in BASE_COLUMNS <==> IsBase(name)
  {
    assert ADDED_COLUMNS[0] in columns && ADDED_COLUMNS[1] in columns;
    assert ADDED_COLUMNS[2] in columns && ADDED_COLUMNS[3] in columns;
  }

  /** The added columns a table lacks. */
  function Added(start: seq<string>): seq<string> {
    Missing(AsSet(start), |ADDED_COLUMNS|)
  }

  lemma {:induction false} LackingHolds(names: seq<string>, existing: set<string>, n: nat, name: string)
    requires n <= |names|
    ensures name in Lacking(names, existing, n) <==> name in names[..n] && name !in existing
  {
    if n > 0 {
      LackingHolds(names, existing, n - 1, name);
      assert names[..n] == names[..n - 1] + [names[n - 1]];
    }
  }

  lemma {:induction false} LackingIsDistinct(names: seq<string>, existing: set<string>, n: nat)
    requires n <= |names| && Distinct(names)
    ensures Distinct(Lacking(names, existing, n))
  {
    if n > 0 {
      LackingIsDistinct(names, existing, n - 1);
      LackingHolds(names, existing, n - 1, names[n - 1]);
    }
  }

  lemma {:induction false} DistinctCounts(s: seq<string>, name: string)
    requires Distinct(s)
    ensures multiset(s)[name] == if name in s then 1 else 0
  {
    if s != [] {
      var last := |s| - 1;
      DistinctCounts(s[..last], name);
      assert s == s[..last] + [s[last]];
    }
  }

  lemma {:induction false} EndsWith(start: seq<string>, columns: seq<string>, name: string)
    requires Grown(start, columns)
    requires forall k :: 0 <= k < |ADDED_COLUMNS| ==> ADDED_COLUMNS[k] in columns
    ensures multiset(columns)[name] == multiset(start)[name] + multiset(Added(start))[name]
  {
    DistinctCounts(columns, name);
    DistinctCounts(start, name);
    LackingHolds(ADDED_COLUMNS, AsSet(start), |ADDED_COLUMNS|, name);
    LackingIsDistinct(ADDED_COLUMNS, AsSet(start), |ADDED_COLUMNS|);
    DistinctCounts(Added(start), name);
    assert ADDED_COLUMNS[..|ADDED_COLUMNS|] == ADDED_COLUMNS;
    if name in columns && name !in start {
      var k :| 0 <= k < |columns| && columns[k] == name;
      assert k >= |start|;
    }
  }

  lemma {:induction false} EndsComplete(start: seq<string>, columns: seq<string>)
    requires Grown(start, columns)
    requires forall k :: 0 <= k < |ADDED_COLUMNS| ==> ADDED_COLUMNS[k] in columns
    ensures multiset(columns) == multiset(start) + multiset(Added(start))
  {
    forall name ensures multiset(columns)[name] == multiset(start)[name] + multiset(Added(start))[name] {
      EndsWith(start, columns, name);
    }
  }

  /** An instance issues ALTERs for exactly the columns its read did not show, so none at
      all on a database that is already migrated, whatever the others do meanwhile. */
  lemma {:induction false} AltersOnlyWhatItMissed(start: seq<string>, s: State, acts: seq<Action>, i: nat)
    requires Inv(start, s) && IsRun(s, acts)
    requires i in s.stages && s.stages[i].Adding?
    ensures var e := Run(s, acts);
            && i in e.stages && i in e.issued
            && (AllSucceed(acts, i) && e.stages[i] == Done ==>
                e.issued[i] == Missing(s.stages[i].existing, |ADDED_COLUMNS|))
            && ((forall k :: 0 <= k < |ADDED_COLUMNS| ==> ADDED_COLUMNS[k] in s.stages[i].existing) ==>
                e.issued[i] == [])
    decreases |acts|
  {
    assert StageInv(s, i);
    var existing := s.stages[i].existing;
    if forall k :: 0 <= k < |ADDED_COLUMNS| ==> ADDED_COLUMNS[k] in existing {
      NothingMissing(existing, s.stages[i].next);
    }
    if acts != [] {
      var s' := Apply(s, acts[0]);
      StepKeepsInv(start, s, acts[0]);
      if s'.stages[i].Adding? {
        AltersOnlyWhatItMissed(start, s', acts[1..], i);
      } else {
        IssuesNoMore(s', acts[1..], i);
      }
    }
  }

  lemma {:induction false} NothingMissing(existing: set<string>, n: nat)
    requires n <= |ADDED_COLUMNS| && forall k :: 0 <= k < |ADDED_COLUMNS| ==> ADDED_COLUMNS[k] in existing
    ensures Missing(existing, n) == []
  {
    if n > 0 {
      NothingMissing(existing, n - 1);
    }
  }

  lemma {:induction false} IssuesNoMore(s: State, acts: seq<Action>, i: nat)
    requires IsRun(s, acts) && i in s.stages && i in s.issued && (s.stages[i] == Done || s.stages[i] == Failed)
    ensures i in Run(s, acts).stages && Run(s, acts).stages[i] == s.stages[i]
    ensures i in Run(s, acts).issued && Run(s, acts).issued[i] == s.issued[i]
    decreases |acts|
  {
    if acts != [] {
      IssuesNoMore(Apply(s, acts[0]), acts[1..], i);
    }
  }

  // ---- the code of one instance ----

  datatype SqlError = DuplicateColumn | Broken

  datatype MigrationError = FailedToCreate | FailedToRead | FailedToAdd(column: string)

  /** The database file, shared by all instances. */
  class Database {
    var columns: Option<seq<string>>
    ghost const start: State
    ghost var trace: seq<Action>

    ghost predicate Valid()
      reads this
    {
      && (start.columns.Some? ==> Distinct(start.columns.value))
      && start == Initial(start.columns, start.stages.Keys)
      && IsRun(start, trace) && Now().columns == columns
    }

    ghost function Now(): State
      requires IsRun(start, trace)
      reads this
    {
      Run(start, trace)
    }

    ghost predicate Stands(me: nat, stage: Stage)
      reads this
    {
      IsRun(start, trace) && me in Now().stages && me in Now().issued && Now().stages[me] == stage
    }

    constructor (columns: Option<seq<string>>, ghost instances: set<nat>)
      requires columns.Some? ==> Distinct(columns.value)
      ensures Valid() && trace == [] && start == Initial(columns, instances)
    {
      this.columns := columns;
      start := Initial(columns, instances);
      trace := [];
    }

    ghost method Take(a: Action)
      requires IsRun(start, trace) && Enabled(Now(), a)
      modifies this`trace
      ensures trace == old(trace) + [a] && IsRun(start, trace) && Now() == Apply(old(Now()), a)
    {
      RunAppends(start, trace, a);
      trace := trace + [a];
    }

    /** Between two statements the other instances may take any steps; callers know only
        what is ensured here. */
    method Others(ghost me: nat, ghost stage: Stage)
      requires Valid() && Stands(me, stage)
      modifies this
      ensures Valid() && Stands(me, stage) && old(trace) <= trace
    {
    }

    method CreateIfNotExists(ghost me: nat) returns (ok: bool)
      requires Valid() && Stands(me, Creating)
      modifies this
      ensures Valid() && Stands(me, if ok then Reading else Failed)
      ensures trace == old(trace) + [Create(me, ok)]
    {
      ok := *;
      if ok && columns.None? {
        columns := Some(BASE_COLUMNS);
      }
      Take(Create(me, ok));
    }

    method TableInfo(ghost me: nat) returns (r: Result<seq<string>, SqlError>)
      requires Valid() && Stands(me, Reading)
      modifies this
      ensures Valid() && trace == old(trace) + [Read(me, r.Success?)]
      ensures if r.Success? then Stands(me, Adding(AsSet(r.value), 0)) else Stands(me, Failed)
    {
      RunsKeepInv();
      assert StageInv(Now(), me);
      var ok: bool := *;
      Take(Read(me, ok));
      r := if ok then Success(columns.value) else Failure(Broken);
    }

    lemma {:induction false} RunsKeepInv()
      requires Valid()
      ensures Inv(Start(start.columns), Now())
    {
      InitialInv(start.columns, start.stages.Keys);
      RunKeepsInv(Start(start.columns), start, trace);
    }

    /** The step is complete only with the caller's reaction to a duplicate. */
    method AlterTableAdd(ghost me: nat, name: string, ghost existing: set<string>, ghost next: nat)
      returns (r: Result<(), SqlError>)
      requires Valid() && Stands(me, Adding(existing, next))
      requires next < |ADDED_COLUMNS| && name == ADDED_COLUMNS[next] && name !in existing
      modifies this
      ensures Valid() && trace == old(trace) + [Column(me, r != Failure(Broken))]
      ensures Stands(me, if r == Failure(Broken) then Failed else Advanced(existing, next))
    {
      RunsKeepInv();
      assert StageInv(Now(), me);
      var ok: bool := *;
      Take(Column(me, ok));
      if !ok {
        return Failure(Broken);
      }
      if name in columns.value {
        return Failure(DuplicateColumn);
      }
      columns := Some(columns.value + [name]);
      return Success(());
    }
  }

  /** `existing_columns`. */
  method ExistingColumns(db: Database, ghost me: nat) returns (r: Result<set<string>, MigrationError>)
    requires db.Valid() && db.Stands(me, Reading)
    modifies db
    ensures db.Valid() && db.trace == old(db.trace) + [Read(me, r.Success?)]
    ensures if r.Success? then db.Stands(me, Adding(r.value, 0)) else db.Stands(me, Failed)
  {
    var rows := db.TableInfo(me);
    if rows.Failure? {
      return Failure(FailedToRead);
    }
    var columns: set<string> := {};
    for i := 0 to |rows.value|
      invariant columns == AsSet(rows.value[..i])
    {
      columns := columns + {rows.value[i]};
    }
    assert rows.value[..|rows.value|] == rows.value;
    return Success(columns);
  }

  /** `add_column`: another instance may have added the column since the read. */
  method AddColumn(db: Database, ghost me: nat, name: string, ghost existing: set<string>, ghost next: nat)
    returns (r: Result<(), MigrationError>)
    requires db.Valid() && db.Stands(me, Adding(existing, next))
    requires next < |ADDED_COLUMNS| && name == ADDED_COLUMNS[next] && name !in existing
    modifies db
    ensures db.Valid() && db.trace == old(db.trace) + [Column(me, r.Success?)]
    ensures db.Stands(me, if r.Success? then Advanced(existing, next) else Failed)
    ensures r.Failure? ==> r.error == FailedToAdd(name)
  {
    var result := db.AlterTableAdd(me, name, existing, next);
    match result
    case Success(_) => r := Success(());
    case Failure(DuplicateColumn) => r := Success(());
    case Failure(Broken) => r := Failure(FailedToAdd(name));
  }

  /** `migrate`: whatever the other instances do, its steps are those of an instance of the
      protocol above, and it succeeds exactly if that instance gets done. */
  method Migrate(db: Database, ghost me: nat) returns (r: Result<(), MigrationError>)
    requires db.Valid() && db.Stands(me, Creating)
    modifies db
    ensures db.Valid() && old(db.trace) <= db.trace
    ensures db.Stands(me, if r.Success? then Done else Failed)
  {
    var created := db.CreateIfNotExists(me);
    if !created {
      return Failure(FailedToCreate);
    }
    db.Others(me, Reading);
    var existing :- ExistingColumns(db, me);
    for k := 0 to |ADDED_COLUMNS|
      invariant db.Valid() && old(db.trace) <= db.trace
      invariant db.Stands(me, if k < |ADDED_COLUMNS| then Adding(existing, k) else Done)
    {
      db.Others(me, Adding(existing, k));
      if ADDED_COLUMNS[k] in existing {
        db.RunsKeepInv();
        assert StageInv(db.Now(), me);
        db.Take(Column(me, true));
        continue;
      }
      var _ :- AddColumn(db, me, ADDED_COLUMNS[k], existing, k);
    }
    return Success(());
  }
}
