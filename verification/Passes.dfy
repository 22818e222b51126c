/** The passes of a selection one after the other, from the sorted candidates to the final lists. */
module Passes {
  import opened Wrappers
  import opened Common
  import opened Selection
  import opened Selected
  import opened Choices
  import opened Groups
  import opened Iteration

  /** Every group is wholly among the selected txs or wholly among the rest, in its order and in one piece. */
  ghost predicate Undivided(all: seq<PoolL2Tx>, selected: seq<PoolL2Tx>, rest: seq<PoolL2Tx>) {
    && Contiguous(selected) && Contiguous(rest)
    && forall g :: g != NO_GROUP ==>
         || (Group(selected, g) == [] && Group(rest, g) == Group(all, g))
         || (Group(selected, g) == Group(all, g) && Group(rest, g) == [])
  }

  lemma UndividedAtFirst(all: seq<PoolL2Tx>)
    requires Contiguous(all)
    ensures Undivided(all, [], all)
  {
  }

  /** What is picked in a pass shares no group with what was selected before. */
  lemma PickedIsNew(w: Work, v: Work, txs: seq<PoolL2Tx>, m: nat, picked: seq<PoolL2Tx>, all: seq<PoolL2Tx>)
    requires Undivided(all, w.selected, txs) && CutAt(w, v, txs, m, picked)
    ensures forall s, t :: s in w.selected && t in picked && s.atomicGroupID != NO_GROUP ==>
              s.atomicGroupID != t.atomicGroupID
  {
    hide Contiguous, Sublist, Ids;
    forall s, t | s in w.selected && t in picked && s.atomicGroupID != NO_GROUP
      ensures s.atomicGroupID != t.atomicGroupID
    {
      var g := s.atomicGroupID;
      GroupEmptyIff(w.selected, g);
      assert txs == txs[..m] + txs[m..];
      GroupConcat(txs[..m], txs[m..], g);
      GroupEmptyIff(picked, g);
    }
  }

  lemma PassKeepsUndivided(w: Work, v: Work, txs: seq<PoolL2Tx>, m: nat, picked: seq<PoolL2Tx>, all: seq<PoolL2Tx>)
    requires Undivided(all, w.selected, txs) && CutAt(w, v, txs, m, picked)
    ensures Undivided(all, v.selected, v.later)
  {
    hide Contiguous, Sublist, Ids, Group;
    SublistContiguous(picked, txs);
    SublistContiguous(v.later, txs);
    PickedIsNew(w, v, txs, m, picked, all);
    ContiguousConcat(w.selected, picked);
    forall g | g != NO_GROUP
      ensures (Group(v.selected, g) == [] && Group(v.later, g) == Group(all, g))
              || (Group(v.selected, g) == Group(all, g) && Group(v.later, g) == [])
    {
      GroupConcat(w.selected, picked, g);
      assert txs == txs[..m] + txs[m..];
      GroupConcat(txs[..m], txs[m..], g);
      CutBetweenGroups(txs, m, g);
    }
  }

  lemma {:induction false} IdsSize(txs: seq<PoolL2Tx>)
    ensures |Ids(txs)| == |txs|
  {
    if txs != [] {
      IdsSize(txs[..|txs| - 1]);
    }
  }

  /** A pass that picks something leaves fewer candidates. */
  lemma PassShrinks(w: Work, v: Work, txs: seq<PoolL2Tx>, m: nat, picked: seq<PoolL2Tx>)
    requires CutAt(w, v, txs, m, picked)
    ensures |v.selected| == |w.selected| + |picked|
    ensures picked != [] ==> |v.later| < |txs|
  {
    hide Ids, Sublist, Group;
    IdsSize(picked);
    IdsSize(v.later);
    IdsSize(v.never);
    IdsSize(txs);
  }

  /** The ids of a pass are accounted for. */
  lemma PassKeepsIds(w: Work, v: Work, txs: seq<PoolL2Tx>, m: nat, picked: seq<PoolL2Tx>, gone: multiset<TxID>)
    requires CutAt(w, v, txs, m, picked)
    ensures Ids(v.selected) + Ids(v.later) + (gone + Ids(v.never)) == Ids(w.selected) + Ids(txs) + gone
  {
    hide Ids, Sublist, Group;
    IdsConcat(w.selected, picked);
  }
}
