/**
 The vote-pay accumulators. The contract integrates one global share and one global rate lazily,
 while every producer's share is brought up to date at a time of its own; the two accounts agree
 at every instant.
 */
module VotePay {
  import opened Basics
  import opened Voting
  import opened RealSums

  function VotesOf(p: Name, r: Producer): real {
    r.votes
  }

  function CountedVotes(p: Name, r: Producer): real {
    if Counted(r) then r.votes else 0.0
  }

  /** A counted producer's share, carried back to time zero at its present rate. */
  function CountedBase(p: Name, r: Producer): real {
    if Counted(r) then r.share - Growth(r.votes, r.updated) else 0.0
  }

  /** A counted producer's share, carried forward to a later time at its present rate. */
  function ShareAt(t: int): (Name, Producer) -> real {
    (p: Name, r: Producer) => if Counted(r) then r.share + Growth(r.votes, t - r.updated) else 0.0
  }

  ghost predicate RowFormed(r: Producer, now: int) {
    && r.votes >= 0.0 && r.share >= 0.0
    && r.updated <= now && 0 < r.lastClaim <= now
    // Nothing is owed for the time after an account stopped being counted.
    && (!Counted(r) ==> r.share == 0.0)
  }

  ghost predicate RowsFormed(producers: map<Name, Producer>, now: int) {
    forall p :: p in producers ==> RowFormed(producers[p], now)
  }

  /** The global accumulators, with the corrections still to be applied, agree with the producers. */
  ghost predicate Accrual(f: Shift) {
    && f.s.shareTime <= f.s.now
    && RowsFormed(f.s.producers, f.s.now)
    && f.s.totalWeight == Sum(f.s.producers, VotesOf)
    && f.s.rate + f.rate == Sum(f.s.producers, CountedVotes)
    && f.s.totalShare - Growth(f.s.rate, f.s.shareTime) - f.inactive - Growth(f.rate, f.s.now)
       == Sum(f.s.producers, CountedBase)
  }

  /** The same with nothing left to apply. */
  ghost predicate InAgreement(s: State) {
    Accrual(Shift(s, 0.0, 0.0))
  }

  lemma GrowthBetween(rate: real, a: int, b: int)
    ensures Growth(rate, b - a) == Growth(rate, b) - Growth(rate, a)
  {
    var x, y := a as real / 1_000_000.0, b as real / 1_000_000.0;
    assert rate * (y - x) == rate * y - rate * x;
  }

  lemma GrowthAdds(a: real, b: real, t: int)
    ensures Growth(a + b, t) == Growth(a, t) + Growth(b, t)
  {
    var x := t as real / 1_000_000.0;
    assert (a + b) * x == a * x + b * x;
  }

  lemma GrowthZero(t: int)
    ensures Growth(0.0, t) == 0.0
  {
  }

  lemma GrowthNonNegative(rate: real, t: int)
    requires rate >= 0.0 && t >= 0
    ensures Growth(rate, t) >= 0.0
  {
  }

  /** Linear growth, summed. */
  lemma ShareAtSum(m: map<Name, Producer>, t: int)
    ensures Sum(m, ShareAt(t)) == Sum(m, CountedBase) + Growth(Sum(m, CountedVotes), t)
  {
    forall p | p in m
      ensures ShareAt(t)(p, m[p]) == CountedBase(p, m[p]) + Times(CountedVotes(p, m[p]), t as real / 1_000_000.0)
    {
      GrowthBetween(m[p].votes, m[p].updated, t);
    }
    SumLinear(m, ShareAt(t), CountedBase, CountedVotes, t as real / 1_000_000.0);
  }

  /**
   At any time from the last update on, the global share carried forward at the global rate is the
   sum of what each counted producer would have accrued by then.
   */
  lemma GlobalShareIsSum(s: State, t: int)
    requires InAgreement(s)
    ensures s.rate == Sum(s.producers, CountedVotes)
    ensures s.totalShare + Growth(s.rate, t - s.shareTime) == Sum(s.producers, ShareAt(t))
  {
    hide Growth;
    GrowthZero(s.now);
    ShareAtSum(s.producers, t);
    GrowthBetween(s.rate, s.shareTime, t);
  }

  lemma SharesNonNegative(m: map<Name, Producer>, now: int)
    requires RowsFormed(m, now)
    ensures Sum(m, CountedVotes) >= 0.0
    ensures Sum(m, ShareAt(now)) >= 0.0
    ensures forall p :: p in m ==> ShareAt(now)(p, m[p]) <= Sum(m, ShareAt(now))
  {
    hide Growth;
    forall p | p in m
      ensures ShareAt(now)(p, m[p]) >= 0.0
    {
      GrowthNonNegative(m[p].votes, now - m[p].updated);
    }
    SumBounds(m, CountedVotes);
    SumBounds(m, ShareAt(now));
  }

  /** Moving votes at one producer keeps the accounts in agreement. */
  lemma ShiftProducerKeeps(f: Shift, d: Delta, cause: Cause)
    requires Accrual(f) && d.producer in f.s.producers
    requires f.s.producers[d.producer].votes + d.votes >= 0.0
    ensures Accrual(ShiftProducer(f, d, cause))
  {
    hide Growth;
    var p, r := d.producer, f.s.producers[d.producer];
    var g := ShiftProducer(f, d, cause);
    var row := g.s.producers[p];
    SumPut(f.s.producers, VotesOf, p, row);
    SumPut(f.s.producers, CountedVotes, p, row);
    SumPut(f.s.producers, CountedBase, p, row);
    ShiftRow(r, d.votes, f.s.now);
    GrowthAdds(f.rate, d.votes, f.s.now);
    GrowthAdds(f.rate, -r.votes, f.s.now);
  }

  /** The producer's part of such a move. */
  lemma ShiftRow(r: Producer, votes: real, now: int)
    requires RowFormed(r, now)
    ensures Growth(r.votes, now) - Growth(r.votes, r.updated) == Growth(r.votes, now - r.updated)
    ensures Counted(r) ==> Accrued(r, r.votes, now) == r.share + Growth(r.votes, now - r.updated) >= 0.0
    ensures Growth(r.votes + votes, now) == Growth(r.votes, now) + Growth(votes, now)
    ensures Growth(-r.votes, now) == -Growth(r.votes, now)
  {
    hide Growth;
    GrowthBetween(r.votes, r.updated, now);
    GrowthNonNegative(r.votes, now - r.updated);
    GrowthZero(now - r.updated);
    GrowthAdds(r.votes, votes, now);
    GrowthAdds(r.votes, -r.votes, now);
    GrowthZero(now);
    assert now == r.updated ==> Growth(r.votes, now - r.updated) == 0.0 by {
      GrowthBetween(r.votes, now, now);
    }
  }

  lemma ShiftProducerVotes(f: Shift, d: Delta, cause: Cause)
    requires d.producer in f.s.producers
    requires f.s.producers[d.producer].votes + d.votes >= 0.0
    ensures var g := ShiftProducer(f, d, cause);
            && g.s.producers.Keys == f.s.producers.Keys
            && forall p :: p in f.s.producers ==>
                 g.s.producers[p].votes == f.s.producers[p].votes + (if p == d.producer then d.votes else 0.0)
  {
  }

  /** Applying the corrections: the clamps to zero do not fire. */
  lemma UpdateTotalKeeps(f: Shift)
    requires Accrual(f)
    ensures var t := UpdateTotalShare(f.s, -f.inactive, f.rate);
            && InAgreement(t)
            && t.rate == f.s.rate + f.rate
            && t.totalShare == f.s.totalShare + Growth(f.s.rate, f.s.now - f.s.shareTime) - f.inactive
  {
    hide Growth;
    SharesNonNegative(f.s.producers, f.s.now);
    ShareAtSum(f.s.producers, f.s.now);
    GrowthBetween(f.s.rate, f.s.shareTime, f.s.now);
    GrowthAdds(f.s.rate, f.rate, f.s.now);
    GrowthZero(f.s.now);
  }

  // ---------------------------------------------------------------------------------------------
  // A whole list of moves.

  /** The votes a list moves to one producer. */
  ghost function MovedTo(ds: seq<Delta>, p: Name): real
    decreases |ds|
  {
    if ds == [] then 0.0
    else MovedTo(ds[..|ds| - 1], p) + (if ds[|ds| - 1].producer == p then ds[|ds| - 1].votes else 0.0)
  }

  ghost predicate Distinct(ds: seq<Delta>) {
    forall i, j :: 0 <= i < j < |ds| ==> ds[i].producer != ds[j].producer
  }

  lemma {:induction false} MovedToNone(ds: seq<Delta>, p: Name)
    requires forall d :: d in ds ==> d.producer != p
    ensures MovedTo(ds, p) == 0.0
    decreases |ds|
  {
    if ds != [] {
      MovedToNone(ds[..|ds| - 1], p);
      assert ds[|ds| - 1] in ds;
    }
  }

  lemma {:induction false} MovedToOne(ds: seq<Delta>, i: nat)
    requires i < |ds| && Distinct(ds)
    ensures MovedTo(ds, ds[i].producer) == ds[i].votes
    decreases |ds|
  {
    if i == |ds| - 1 {
      MovedToNone(ds[..i], ds[i].producer);
    } else {
      MovedToOne(ds[..|ds| - 1], i);
    }
  }

  /** Everything about the producers but their votes and shares, and everything else, is untouched. */
  ghost predicate OnlyVotesMove(s: State, t: State) {
    && t.voters == s.voters && t.now == s.now && t.factor == s.factor
    && t.activatedStake == s.activatedStake && t.threshTime == s.threshTime && t.inexact == s.inexact
    && t.producers.Keys == s.producers.Keys
    && (forall p :: p in s.producers ==>
         && t.producers[p].active == s.producers[p].active
         && t.producers[p].unpaid == s.producers[p].unpaid
         && t.producers[p].lastClaim == s.producers[p].lastClaim)
  }

  lemma {:induction false} ShiftAllFrame(s: State, ds: seq<Delta>, cause: Cause)
    ensures ShiftAll(s, ds, cause).Ok? ==> OnlyVotesMove(s, ShiftAll(s, ds, cause).value.s)
    decreases |ds|
  {
    hide ShiftProducer, OnlyVotesMove;
    if ds == [] {
      MoveNothing(s);
    } else {
      ShiftAllFrame(s, ds[..|ds| - 1], cause);
      var f := ShiftAll(s, ds[..|ds| - 1], cause);
      if f.Ok? && ds[|ds| - 1].producer in f.value.s.producers {
        ShiftProducerFrame(f.value, ds[|ds| - 1], cause);
        MoveTwice(s, f.value.s, ShiftProducer(f.value, ds[|ds| - 1], cause).s);
      }
    }
  }

  lemma MoveNothing(s: State)
    ensures OnlyVotesMove(s, s)
  {
  }

  lemma MoveTwice(s: State, t: State, u: State)
    requires OnlyVotesMove(s, t) && OnlyVotesMove(t, u)
    ensures OnlyVotesMove(s, u)
  {
  }

  lemma ShiftProducerFrame(f: Shift, d: Delta, cause: Cause)
    requires d.producer in f.s.producers
    ensures OnlyVotesMove(f.s, ShiftProducer(f, d, cause).s)
  {
    hide Growth;
  }

  lemma {:induction false} ShiftAllFails(s: State, ds: seq<Delta>, cause: Cause)
    ensures ShiftAll(s, ds, cause) != Err(Endless)
    ensures cause != Cast(true) ==> ShiftAll(s, ds, cause) != Err(Rejected)
    decreases |ds|
  {
    if ds != [] {
      ShiftAllFails(s, ds[..|ds| - 1], cause);
    }
  }

  /** With every producer registered, only an inactive newcomer can stop the moves. */
  lemma {:induction false} ShiftAllSucceeds(s: State, ds: seq<Delta>, cause: Cause)
    requires forall d :: d in ds ==> d.producer in s.producers || (cause == Cast(true))
    ensures ShiftAll(s, ds, cause) != Err(Broken)
    ensures cause != Cast(true) ==> ShiftAll(s, ds, cause).Ok?
    decreases |ds|
  {
    if ds != [] {
      var rest := ds[..|ds| - 1];
      ShiftAllSucceeds(s, rest, cause);
      ShiftAllFrame(s, rest, cause);
      assert ds[|ds| - 1] in ds;
    }
  }

  lemma {:induction false} ShiftAllKeeps(s: State, ds: seq<Delta>, cause: Cause)
    requires InAgreement(s) && Distinct(ds)
    requires forall d :: d in ds && d.producer in s.producers ==> s.producers[d.producer].votes + d.votes >= 0.0
    requires ShiftAll(s, ds, cause).Ok?
    ensures var f := ShiftAll(s, ds, cause).value;
            && Accrual(f)
            && f.s.producers.Keys == s.producers.Keys
            && forall p :: p in s.producers ==> f.s.producers[p].votes == s.producers[p].votes + MovedTo(ds, p)
    decreases |ds|
  {
    hide Growth, Accrual, ShiftProducer;
    if ds != [] {
      var rest, d := ds[..|ds| - 1], ds[|ds| - 1];
      ShiftAllKeeps(s, rest, cause);
      var f := ShiftAll(s, rest, cause).value;
      assert d in ds;
      if d.producer in s.producers {
        MovedToNone(rest, d.producer);
        ShiftProducerKeeps(f, d, cause);
        ShiftProducerVotes(f, d, cause);
      }
    }
  }

  /** Moving votes: the producers change by what was moved, and the accounts still agree. */
  lemma MoveVotesKeeps(s: State, ds: seq<Delta>, cause: Cause)
    requires InAgreement(s) && Distinct(ds)
    requires forall d :: d in ds && d.producer in s.producers ==> s.producers[d.producer].votes + d.votes >= 0.0
    requires MoveVotes(s, ds, cause).Ok?
    ensures var t := MoveVotes(s, ds, cause).value;
            && InAgreement(t)
            && OnlyVotesMove(s, t)
            && forall p :: p in s.producers ==> t.producers[p].votes == s.producers[p].votes + MovedTo(ds, p)
  {
    hide Growth, Sum, Accrual, ShiftAll;
    ShiftAllKeeps(s, ds, cause);
    ShiftAllFrame(s, ds, cause);
    UpdateTotalKeeps(ShiftAll(s, ds, cause).value);
  }
}
