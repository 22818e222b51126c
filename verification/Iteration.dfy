/** One pass of the selector over its candidates. */
module Iteration {
  import opened Wrappers
  import opened Common
  import opened Ledger
  import opened Selection
  import opened Selected
  import opened Choices
  import opened Decisions
  import opened Groups

  ghost predicate Candidates(txs: seq<PoolL2Tx>) {
    forall tx :: tx in txs ==> Poolable(tx)
  }

  lemma MovedGoesOn(v: Work, w: Work, tx: PoolL2Tx)
    requires Moved(v, w, tx)
    ensures GoesOn(w)
  {
  }

  /** A pass ends in an error, in the failure of a group among the candidates, or goes on within bounds. */
  lemma {:induction false} PassIsBounded(env: Env, w: Work, txs: seq<PoolL2Tx>)
    requires w.stop.Going?
    ensures var v := SelectAll(env, w, txs);
            && (GoesOn(v) && Bounded(env, w) ==> Bounded(env, v))
            && (v.stop.GroupFailed? ==> v.stop.id != NO_GROUP && exists tx :: tx in txs && tx.atomicGroupID == v.stop.id)
  {
    hide Bounded, Admit, Moved;
    if txs != [] {
      var n := |txs| - 1;
      var v := SelectAll(env, w, txs[..n]);
      PassIsBounded(env, w, txs[..n]);
      assert txs[n] in txs;
      if GoesOn(v) {
        SelectOnePlaces(env, v, txs[n]);
        if Moved(v, SelectAll(env, w, txs), txs[n]) {
          MovedGoesOn(v, SelectAll(env, w, txs), txs[n]);
        }
      }
    }
  }

  /** A pass over what the pool guarantees keeps the selection sound, and leaves such txs for later. */
  lemma {:induction false} PassIsSound(env: Env, st1: State, w: Work, txs: seq<PoolL2Tx>)
    requires Workable(env, st1) && Sound(env, st1, w) && w.stop.Going? && w.later == [] && Candidates(txs)
    ensures var v := SelectAll(env, w, txs); GoesOn(v) ==> Sound(env, st1, v) && Candidates(v.later)
  {
    hide Sound, Workable, Poolable, Admit;
    if txs != [] {
      var n := |txs| - 1;
      PassIsSound(env, st1, w, txs[..n]);
      assert txs[n] in txs;
      if GoesOn(SelectAll(env, w, txs[..n])) {
        SelectOneDecides(env, st1, SelectAll(env, w, txs[..n]), txs[n]);
      }
    }
  }

  /**
   Where the candidates went: those before `m` were decided, an atomic one always selected; the
   rest waits. The `m`-th one, where the batch became full, is in no group.
   */
  ghost predicate CutAt(before: Work, after: Work, txs: seq<PoolL2Tx>, m: nat, picked: seq<PoolL2Tx>) {
    && m <= |txs| && (if after.stop.Full? then m < |txs| && txs[m].atomicGroupID == NO_GROUP else m == |txs|)
    && after.selected == before.selected + picked
    && Sublist(picked, txs) && Sublist(after.later, txs)
    && Ids(picked) + Ids(after.later) + Ids(after.never) == Ids(txs)
    && forall g :: g != NO_GROUP ==> Group(picked, g) == Group(txs[..m], g) && Group(after.later, g) == Group(txs[m..], g)
  }

  lemma SplitNothing(w: Work)
    requires w.stop.Going? && w.later == [] && w.never == []
    ensures CutAt(w, w, [], 0, [])
  {
    SublistEmpty([]);
  }

  lemma GroupOfParts(txs: seq<PoolL2Tx>, tx: PoolL2Tx, m: nat, g: AtomicGroupID)
    requires m <= |txs|
    ensures (txs + [tx])[..m] == txs[..m]
    ensures Group((txs + [tx])[m..], g) == Group(txs[m..], g) + (if tx.atomicGroupID == g then [Bare(tx)] else [])
  {
    assert (txs + [tx])[m..] == txs[m..] + [tx];
    GroupSnoc(txs[m..], tx, g);
  }

  lemma SplitSelects(before: Work, v: Work, w: Work, txs: seq<PoolL2Tx>, tx: PoolL2Tx, t: PoolL2Tx,
                     picked: seq<PoolL2Tx>)
    requires CutAt(before, v, txs, |txs|, picked) && v.stop.Going? && w.stop.Going?
    requires w.later == v.later && w.never == v.never && Bare(t) == Bare(tx) && w.selected == v.selected + [t]
    ensures CutAt(before, w, txs + [tx], |txs| + 1, picked + [t])
  {
    hide Ids, Group, Sublist, Bare;
    var all := txs + [tx];
    SameGroup(t, tx);
    IdsSnoc(picked, t);
    IdsSnoc(txs, tx);
    SublistTake(picked, txs, t, tx);
    SublistSkip(v.later, txs, tx);
    assert all[..|txs| + 1] == all && all[|txs| + 1..] == txs[|txs|..] && txs[..|txs|] == txs;
    forall g | g != NO_GROUP
      ensures Group(picked + [t], g) == Group(all[..|txs| + 1], g) && Group(w.later, g) == Group(all[|txs| + 1..], g)
    {
      GroupSnoc(picked, t, g);
      GroupSnoc(txs, tx, g);
    }
  }

  lemma SplitPostpones(before: Work, v: Work, w: Work, txs: seq<PoolL2Tx>, tx: PoolL2Tx, t: PoolL2Tx,
                       m: nat, picked: seq<PoolL2Tx>)
    requires CutAt(before, v, txs, m, picked) && GoesOn(v)
    requires w.selected == v.selected && w.never == v.never && w.later == v.later + [t]
    requires Bare(t) == Bare(tx)
    requires v.stop.Full? || tx.atomicGroupID == NO_GROUP
    requires if v.stop.Full? then w.stop.Full? else GoesOn(w)
    ensures CutAt(before, w, txs + [tx], if w.stop.Full? then m else m + 1, picked)
  {
    hide Ids, Group, Sublist, Bare;
    var all := txs + [tx];
    SameGroup(t, tx);
    IdsSnoc(v.later, t);
    IdsSnoc(txs, tx);
    SublistTake(v.later, txs, t, tx);
    SublistSkip(picked, txs, tx);
    var k := if w.stop.Full? then m else m + 1;
    assert k == |all| ==> all[..k] == txs + [tx] && all[k..] == txs[m..] && txs[..m] == txs;
    forall g | g != NO_GROUP
      ensures Group(picked, g) == Group(all[..k], g) && Group(w.later, g) == Group(all[k..], g)
    {
      GroupSnoc(v.later, t, g);
      GroupSnoc(txs, tx, g);
      GroupOfParts(txs, tx, m, g);
    }
  }

  lemma SplitDiscards(before: Work, v: Work, w: Work, txs: seq<PoolL2Tx>, tx: PoolL2Tx, picked: seq<PoolL2Tx>)
    requires CutAt(before, v, txs, |txs|, picked) && v.stop.Going? && w.stop.Going?
    requires w.selected == v.selected && w.later == v.later && w.never == v.never + [tx] && tx.atomicGroupID == NO_GROUP
    ensures CutAt(before, w, txs + [tx], |txs| + 1, picked)
  {
    hide Ids, Group, Sublist, Bare;
    var all := txs + [tx];
    IdsSnoc(v.never, tx);
    IdsSnoc(txs, tx);
    SublistSkip(picked, txs, tx);
    SublistSkip(v.later, txs, tx);
    assert all[..|txs| + 1] == all && all[|txs| + 1..] == txs[|txs|..] && txs[..|txs|] == txs;
    forall g | g != NO_GROUP
      ensures Group(picked, g) == Group(all[..|txs| + 1], g) && Group(w.later, g) == Group(all[|txs| + 1..], g)
    {
      GroupSnoc(txs, tx, g);
    }
  }

  lemma CutNext(before: Work, v: Work, w: Work, txs: seq<PoolL2Tx>, tx: PoolL2Tx, m: nat, picked: seq<PoolL2Tx>)
    returns (k: nat, more: seq<PoolL2Tx>)
    requires CutAt(before, v, txs, m, picked) && GoesOn(v) && Moved(v, w, tx)
    ensures CutAt(before, w, txs + [tx], k, more) && GoesOn(w)
  {
    hide CutAt, Bare;
    MOf(before, v, txs, m, picked);
    if t: PoolL2Tx :| v.stop.Going? && w.stop.Going? && w.later == v.later && w.never == v.never
                      && Bare(t) == Bare(tx) && w.selected == v.selected + [t] {
      SplitSelects(before, v, w, txs, tx, t, picked);
      k, more := |txs| + 1, picked + [t];
    } else if w.never == v.never + [tx] && v.stop.Going? && w.stop.Going? && w.selected == v.selected
              && w.later == v.later && tx.atomicGroupID == NO_GROUP {
      SplitDiscards(before, v, w, txs, tx, picked);
      k, more := |txs| + 1, picked;
    } else {
      var t :| Bare(t) == Bare(tx) && w.later == v.later + [t];
      SplitPostpones(before, v, w, txs, tx, t, m, picked);
      k, more := if w.stop.Full? then m else m + 1, picked;
    }
  }

  lemma MOf(before: Work, v: Work, txs: seq<PoolL2Tx>, m: nat, picked: seq<PoolL2Tx>)
    requires CutAt(before, v, txs, m, picked)
    ensures !v.stop.Full? ==> m == |txs|
  {
  }

  /** A pass that goes on has split its candidates. */
  lemma {:induction false} PassSplits(env: Env, w: Work, txs: seq<PoolL2Tx>)
    returns (m: nat, picked: seq<PoolL2Tx>)
    requires w.stop.Going? && w.later == [] && w.never == []
    requires GoesOn(SelectAll(env, w, txs))
    ensures CutAt(w, SelectAll(env, w, txs), txs, m, picked)
  {
    hide Admit, Moved, CutAt, Bounded;
    if txs == [] {
      SplitNothing(w);
      m, picked := 0, [];
    } else {
      var n := |txs| - 1;
      var v := SelectAll(env, w, txs[..n]);
      assert txs == txs[..n] + [txs[n]];
      m, picked := PassSplits(env, w, txs[..n]);
      SelectOnePlaces(env, v, txs[n]);
      m, picked := CutNext(w, v, SelectAll(env, w, txs), txs[..n], txs[n], m, picked);
    }
  }
}
