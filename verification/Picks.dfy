/** The webhooks that the passes of a forwarder picked, in order, and what due times make of
    that order: how long a few failing webhooks can take all the passes. */
module Picks {
  import opened Sets

  /** One pick, the time of its pass, and whether its failure was recorded. */
  datatype Pick = Pick(id: nat, at: int, recorded: bool)

  /** The delay that follows a failure, by its number, is at least this. */
  type Least = nat -> int

  /** The recorded failures of a webhook. */
  function Failures(picks: seq<Pick>, id: nat): nat {
    if picks == [] then 0
    else
      var last := picks[|picks| - 1];
      Failures(picks[..|picks| - 1], id) + if last.id == id && last.recorded then 1 else 0
  }

  /** The time of the last pick of a webhook whose failure was recorded. */
  function LastFailure(picks: seq<Pick>, id: nat): int {
    if picks == [] then 0
    else
      var last := picks[|picks| - 1];
      if last.id == id && last.recorded then last.at else LastFailure(picks[..|picks| - 1], id)
  }

  /** How many picks went unrecorded. */
  function Unrecorded(picks: seq<Pick>): nat {
    if picks == [] then 0
    else Unrecorded(picks[..|picks| - 1]) + if picks[|picks| - 1].recorded then 0 else 1
  }

  /** A webhook is due again once the delay of its last failure has passed. */
  ghost predicate IsDue(picks: seq<Pick>, id: nat, at: int, least: Least) {
    Failures(picks, id) > 0 ==> LastFailure(picks, id) + least(Failures(picks, id)) <= at
  }

  /** Passes `gap` seconds apart, each of which picks a rival that is due. */
  ghost predicate Sound(picks: seq<Pick>, rivals: set<nat>, gap: nat, least: Least) {
    picks == [] ||
    (var front, last := picks[..|picks| - 1], picks[|picks| - 1];
     && Sound(front, rivals, gap, least)
     && last.id in rivals && IsDue(front, last.id, last.at, least)
     && (front != [] ==> last.at == front[|front| - 1].at + gap))
  }

  /** The failure of the last pick has been recorded. */
  function Mark(picks: seq<Pick>): seq<Pick>
    requires picks != []
  {
    picks[..|picks| - 1] + [picks[|picks| - 1].(recorded := true)]
  }

  lemma {:induction false} AppendPick(picks: seq<Pick>, pick: Pick, id: nat)
    ensures Failures(picks + [pick], id) == Failures(picks, id) + if pick.id == id && pick.recorded then 1 else 0
    ensures LastFailure(picks + [pick], id) == if pick.id == id && pick.recorded then pick.at
        else LastFailure(picks, id)
    ensures Unrecorded(picks + [pick]) == Unrecorded(picks) + if pick.recorded then 0 else 1
  {
    assert (picks + [pick])[..|picks|] == picks;
  }

  lemma {:induction false} MarkLast(picks: seq<Pick>, id: nat)
    requires picks != [] && !picks[|picks| - 1].recorded
    ensures var last := picks[|picks| - 1];
            && Failures(Mark(picks), id) == Failures(picks, id) + (if last.id == id then 1 else 0)
            && LastFailure(Mark(picks), id) == (if last.id == id then last.at else LastFailure(picks, id))
            && Unrecorded(Mark(picks)) + 1 == Unrecorded(picks)
  {
    AppendPick(picks[..|picks| - 1], picks[|picks| - 1].(recorded := true), id);
  }

  lemma {:induction false} MarkKeepsSound(picks: seq<Pick>, rivals: set<nat>, gap: nat, least: Least)
    requires picks != [] && Sound(picks, rivals, gap, least)
    ensures Sound(Mark(picks), rivals, gap, least)
  {
    assert Mark(picks)[..|picks| - 1] == picks[..|picks| - 1];
  }

  lemma {:induction false} SoundPrefix(picks: seq<Pick>, rivals: set<nat>, gap: nat, least: Least, n: nat)
    requires Sound(picks, rivals, gap, least) && n <= |picks|
    ensures Sound(picks[..n], rivals, gap, least) && Unrecorded(picks[..n]) <= Unrecorded(picks)
    decreases |picks|
  {
    if n < |picks| {
      SoundPrefix(picks[..|picks| - 1], rivals, gap, least, n);
      assert picks[..|picks| - 1][..n] == picks[..n];
    } else {
      assert picks[..n] == picks;
    }
  }

  // ---- what two picks of one webhook say ----

  /** Times of passes are as far apart as their places in the order. */
  lemma {:induction false} Spaced(picks: seq<Pick>, rivals: set<nat>, gap: nat, least: Least, i: nat, j: nat)
    requires Sound(picks, rivals, gap, least) && i <= j < |picks|
    ensures picks[j].at == picks[i].at + Times(j - i, gap)
    decreases j
  {
    if i < j {
      SoundPrefix(picks, rivals, gap, least, j + 1);
      var front := picks[..j + 1];
      assert front[..|front| - 1] == picks[..j];
      Spaced(picks, rivals, gap, least, i, j - 1);
    }
  }

  /** The last recorded pick of a webhook that has one from `i` on. */
  lemma {:induction false} LastIsAt(picks: seq<Pick>, id: nat, i: nat) returns (m: nat)
    requires i < |picks| && picks[i].id == id && picks[i].recorded
    ensures i <= m < |picks| && LastFailure(picks, id) == picks[m].at
    ensures 0 < Failures(picks[..i + 1], id) <= Failures(picks, id)
    decreases |picks|
  {
    var last := |picks| - 1;
    if i == last {
      m := last;
      assert picks[..i + 1] == picks;
    } else {
      m := LastIsAt(picks[..last], id, i);
      assert picks[..last][..i + 1] == picks[..i + 1];
      if picks[last].id == id && picks[last].recorded {
        m := last;
      }
    }
  }

  /** A webhook picked again after a recorded failure has waited out a delay, which has then
      passed within as many gaps. */
  lemma {:induction false} PickedAgain(picks: seq<Pick>, rivals: set<nat>, gap: nat, least: Least, i: nat, j: nat)
    returns (failures: nat)
    requires Sound(picks, rivals, gap, least) && i < j < |picks|
    requires picks[i].id == picks[j].id && picks[i].recorded
    ensures Failures(picks[..i + 1], picks[i].id) <= failures && 0 < failures
    ensures least(failures) <= Times(j - i, gap)
  {
    var id, front := picks[j].id, picks[..j];
    SoundPrefix(picks, rivals, gap, least, j + 1);
    assert picks[..j + 1][..j] == front;
    failures := Failures(front, id);
    var m := LastIsAt(front, id, i);
    assert front[..i + 1] == picks[..i + 1];
    Spaced(picks, rivals, gap, least, m, j);
    TimesGrows(j - m, j - i, gap);
  }

  // ---- pigeonhole ----

  /** Among more picks than rivals, two are of the same webhook. */
  lemma {:induction false} Repeats(picks: seq<Pick>, rivals: set<nat>) returns (i: nat, j: nat)
    requires |rivals| < |picks| && forall p :: 0 <= p < |picks| ==> picks[p].id in rivals
    ensures i < j < |picks| && picks[i].id == picks[j].id
  {
    var last := |picks| - 1;
    if p: nat :| p < last && picks[p].id == picks[last].id {
      i, j := p, last;
    } else {
      i, j := Repeats(picks[..last], rivals - {picks[last].id});
    }
  }

  lemma {:induction false} AllRivals(picks: seq<Pick>, rivals: set<nat>, gap: nat, least: Least, i: nat)
    requires Sound(picks, rivals, gap, least) && i < |picks|
    ensures picks[i].id in rivals
    decreases |picks|
  {
    if i < |picks| - 1 {
      AllRivals(picks[..|picks| - 1], rivals, gap, least, i);
    }
  }

  predicate AllRecorded(picks: seq<Pick>, from: nat, to: nat) {
    forall i :: from <= i < to && i < |picks| ==> picks[i].recorded
  }

  /** In any k + 1 passes whose failures but the last were recorded, some rival waits out a
      delay within k gaps. */
  lemma {:induction false} WindowRepeats(picks: seq<Pick>, rivals: set<nat>, gap: nat, least: Least, from: nat)
    returns (i: nat, failures: nat)
    requires Sound(picks, rivals, gap, least) && from + |rivals| < |picks| && AllRecorded(picks, from, from + |rivals|)
    ensures from <= i < from + |rivals| && picks[i].recorded
    ensures Failures(picks[..i + 1], picks[i].id) <= failures && 0 < failures
    ensures least(failures) <= Times(|rivals|, gap)
  {
    var window := picks[from..from + |rivals| + 1];
    forall p | 0 <= p < |window| ensures window[p].id in rivals {
      AllRivals(picks, rivals, gap, least, from + p);
    }
    var p, q := Repeats(window, rivals);
    i := from + p;
    failures := PickedAgain(picks, rivals, gap, least, i, from + q);
    TimesGrows(q - p, |rivals|, gap);
  }

  lemma {:induction false} NoneUnrecorded(picks: seq<Pick>)
    requires Unrecorded(picks) == 0
    ensures AllRecorded(picks, 0, |picks|)
  {
    if picks != [] {
      NoneUnrecorded(picks[..|picks| - 1]);
      assert picks == picks[..|picks| - 1] + [picks[|picks| - 1]];
    }
  }

  // ---- one webhook ----

  /** One webhook in all n passes, with f failures unrecorded before the last, waits out the
      delay of its failure n - 1 - f within one gap. */
  lemma {:induction false} OneRival(picks: seq<Pick>, id: nat, gap: nat, least: Least, m: nat)
    requires Sound(picks, {id}, gap, least) && picks != []
    requires 0 < m && m + 1 + Unrecorded(picks[..|picks| - 1]) <= |picks|
    requires forall a, later: nat :: 0 < a <= later ==> least(a) <= least(later)
    ensures least(m) <= gap
    decreases |picks|
  {
    var n := |picks| - 1;
    var front := picks[..n];
    AllRivals(picks, {id}, gap, least, n);
    AllRivals(picks, {id}, gap, least, n - 1);
    CountsAll(front, id, gap, least);
    assert front[..n - 1] == picks[..n - 1];
    if front[n - 1].recorded {
      assert LastFailure(front, id) == front[n - 1].at;
      assert IsDue(front, id, picks[n].at, least);
    } else {
      OneRival(front, id, gap, least, m);
    }
  }

  lemma {:induction false} CountsAll(picks: seq<Pick>, id: nat, gap: nat, least: Least)
    requires Sound(picks, {id}, gap, least)
    ensures Failures(picks, id) + Unrecorded(picks) == |picks|
  {
    if picks != [] {
      CountsAll(picks[..|picks| - 1], id, gap, least);
    }
  }

  // ---- for good ----

  /** The failure of the last pick was not recorded, or is one of the first few of its
      webhook. */
  predicate IsEarly(picks: seq<Pick>, ripe: nat)
    requires picks != []
  {
    var last := picks[|picks| - 1];
    !last.recorded || Failures(picks, last.id) < ripe
  }

  function Early(picks: seq<Pick>, ripe: nat): nat {
    if picks == [] then 0 else Early(picks[..|picks| - 1], ripe) + if IsEarly(picks, ripe) then 1 else 0
  }

  /** The early recorded picks of some of the webhooks. */
  function EarlyOf(picks: seq<Pick>, ids: set<nat>, ripe: nat): nat {
    if picks == [] then 0
    else
      var last := picks[|picks| - 1];
      EarlyOf(picks[..|picks| - 1], ids, ripe)
      + if last.id in ids && last.recorded && Failures(picks, last.id) < ripe then 1 else 0
  }

  lemma {:induction false} EarlyOfOne(picks: seq<Pick>, id: nat, ripe: nat)
    ensures EarlyOf(picks, {id}, ripe) == if Failures(picks, id) < ripe then Failures(picks, id)
        else if ripe == 0 then 0 else ripe - 1
  {
    if picks != [] {
      EarlyOfOne(picks[..|picks| - 1], id, ripe);
    }
  }

  lemma {:induction false} EarlyOfSplits(picks: seq<Pick>, ids: set<nat>, id: nat, ripe: nat)
    requires id in ids
    ensures EarlyOf(picks, ids, ripe) == EarlyOf(picks, ids - {id}, ripe) + EarlyOf(picks, {id}, ripe)
  {
    if picks != [] {
      EarlyOfSplits(picks[..|picks| - 1], ids, id, ripe);
    }
  }

  lemma {:induction false} EarlyOfNone(picks: seq<Pick>, ripe: nat)
    ensures EarlyOf(picks, {}, ripe) == 0
  {
    if picks != [] {
      EarlyOfNone(picks[..|picks| - 1], ripe);
    }
  }

  lemma {:induction false} EarlyIsFew(picks: seq<Pick>, ids: set<nat>, ripe: nat)
    requires ripe > 0
    ensures EarlyOf(picks, ids, ripe) <= Times(|ids|, ripe - 1)
    decreases |ids|
  {
    if ids == {} {
      EarlyOfNone(picks, ripe);
    } else {
      var id :| id in ids;
      EarlyOfSplits(picks, ids, id, ripe);
      EarlyOfOne(picks, id, ripe);
      EarlyIsFew(picks, ids - {id}, ripe);
    }
  }

  lemma {:induction false} EarlyIsBounded(picks: seq<Pick>, rivals: set<nat>, gap: nat, least: Least, ripe: nat)
    requires Sound(picks, rivals, gap, least)
    ensures Early(picks, ripe) == Unrecorded(picks) + EarlyOf(picks, rivals, ripe)
  {
    if picks != [] {
      EarlyIsBounded(picks[..|picks| - 1], rivals, gap, least, ripe);
    }
  }

  lemma {:induction false} EarlyAdds(picks: seq<Pick>, from: nat, i: nat, ripe: nat)
    requires from <= i < |picks| && IsEarly(picks[..i + 1], ripe)
    ensures Early(picks[..from], ripe) < Early(picks, ripe)
    decreases |picks|
  {
    var last := |picks| - 1;
    if i == last {
      assert picks[..i + 1] == picks;
      EarlyGrows(picks[..last], from, ripe);
      assert picks[..last][..from] == picks[..from];
    } else {
      assert picks[..last][..i + 1] == picks[..i + 1] && picks[..last][..from] == picks[..from];
      EarlyAdds(picks[..last], from, i, ripe);
    }
  }

  lemma {:induction false} EarlyGrows(picks: seq<Pick>, from: nat, ripe: nat)
    requires from <= |picks|
    ensures Early(picks[..from], ripe) <= Early(picks, ripe)
    decreases |picks|
  {
    if from == |picks| {
      assert picks[..from] == picks;
    } else {
      var last := |picks| - 1;
      assert picks[..last][..from] == picks[..from];
      EarlyGrows(picks[..last], from, ripe);
    }
  }

  /** If delays from the `ripe`-th failure on outlast k gaps, then every k passes hold an
      early pick. */
  lemma {:induction false} EarlyInEveryWindow(picks: seq<Pick>, rivals: set<nat>, gap: nat, least: Least, ripe: nat)
    requires Sound(picks, rivals, gap, least) && 0 < |rivals| && 0 < ripe && picks != []
    requires forall failures: nat :: ripe <= failures ==> Times(|rivals|, gap) < least(failures)
    ensures |picks| <= |rivals| + Times(Early(picks[..|picks| - 1], ripe), |rivals|)
    decreases |picks|
  {
    var n, k := |picks|, |rivals|;
    if n > k {
      var front, from := picks[..n - 1], n - 1 - k;
      var i := EarlyInWindow(picks, rivals, gap, least, ripe, from);
      assert front[..i + 1] == picks[..i + 1] && front[..from] == picks[..from];
      EarlyAdds(front, from, i, ripe);
      SoundPrefix(picks, rivals, gap, least, from + 1);
      assert picks[..from + 1][..from] == picks[..from];
      EarlyInEveryWindow(picks[..from + 1], rivals, gap, least, ripe);
      TimesGrows(Early(picks[..from], ripe) + 1, Early(front, ripe), k);
    }
  }

  lemma {:induction false} EarlyInWindow(picks: seq<Pick>, rivals: set<nat>, gap: nat, least: Least, ripe: nat,
                                         from: nat)
    returns (i: nat)
    requires Sound(picks, rivals, gap, least) && from + |rivals| < |picks|
    requires forall failures: nat :: ripe <= failures ==> Times(|rivals|, gap) < least(failures)
    ensures from <= i < from + |rivals| && IsEarly(picks[..i + 1], ripe)
  {
    if AllRecorded(picks, from, from + |rivals|) {
      var failures: nat;
      i, failures := WindowRepeats(picks, rivals, gap, least, from);
    } else {
      i :| from <= i < from + |rivals| && !picks[i].recorded;
    }
  }

  /** Then k webhooks cannot take more than k * (1 + f + k * (ripe - 1)) passes, f of their
      failures unrecorded. */
  lemma {:induction false} FewPasses(picks: seq<Pick>, rivals: set<nat>, gap: nat, least: Least, ripe: nat)
    requires Sound(picks, rivals, gap, least) && 0 < |rivals| && 0 < ripe && picks != []
    requires forall failures: nat :: ripe <= failures ==> Times(|rivals|, gap) < least(failures)
    ensures |picks| <= Times(1 + Unrecorded(picks[..|picks| - 1]) + Times(|rivals|, ripe - 1), |rivals|)
  {
    var front := picks[..|picks| - 1];
    EarlyInEveryWindow(picks, rivals, gap, least, ripe);
    EarlyIsBounded(front, rivals, gap, least, ripe);
    EarlyIsFew(front, rivals, ripe);
    TimesGrows(1 + Early(front, ripe), 1 + Unrecorded(front) + Times(|rivals|, ripe - 1), |rivals|);
  }
}
