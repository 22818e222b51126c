/** Atomic groups in the selector: which are valid, which have failed (txselector/txselector.go, api/atomicpool.go). */
module AtomicGroups {
  import opened Wrappers
  import opened Common
  import opened Choices
  import opened Groups

  /** The relative position that a request offset stands for. */
  function RequestOffset2RelativePosition(rqOffset: byte): (r: Result<int, Error>)
    ensures r.Ok? <==> 1 <= rqOffset <= 7
    ensures r.Ok? ==> r.value != 0 && -4 <= r.value <= 3 && (rqOffset - r.value) % 8 == 0
  {
    match rqOffset
    case 1 => Ok(1)
    case 2 => Ok(2)
    case 3 => Ok(3)
    case 4 => Ok(-4)
    case 5 => Ok(-3)
    case 6 => Ok(-2)
    case 7 => Ok(-1)
    case _ => Err(InvalidRqOffset)
  }

  /** The tx asks for exactly the tx `rq`. */
  predicate Requests(tx: PoolL2Tx, rq: PoolL2Tx) {
    && tx.rqFromIdx == rq.fromIdx && tx.rqToIdx == rq.toIdx
    && tx.rqToEthAddr == rq.toEthAddr && tx.rqToBJJ == rq.toBJJ && tx.rqTokenID == rq.tokenID
    && tx.rqFee == rq.fee && tx.rqNonce == rq.nonce && tx.rqAmount == Some(rq.amount)
  }

  /** The i-th tx asks for the tx at the position that its offset gives. */
  predicate Linked(txs: seq<PoolL2Tx>, i: nat)
    requires i < |txs|
  {
    var r := RequestOffset2RelativePosition(txs[i].rqOffset);
    r.Ok? && 0 <= i + r.value < |txs| && Requests(txs[i], txs[i + r.value])
  }

  predicate ValidGroup(txs: seq<PoolL2Tx>) {
    forall i :: 0 <= i < |txs| ==> Linked(txs, i)
  }

  method IsAtomicGroupValid(txs: seq<PoolL2Tx>) returns (ok: bool)
    ensures ok == ValidGroup(txs)
  {
    for i := 0 to |txs|
      invariant forall j :: 0 <= j < i ==> Linked(txs, j)
    {
      var rqRelativePosition := RequestOffset2RelativePosition(txs[i].rqOffset);
      if rqRelativePosition.Err? {
        assert !Linked(txs, i);
        return false;
      }
      var requestedPosition := i + rqRelativePosition.value;
      if requestedPosition > |txs| - 1 || requestedPosition < 0 {
        assert !Linked(txs, i);
        return false;
      }
      var rq := txs[requestedPosition];
      if txs[i].rqFromIdx != rq.fromIdx || txs[i].rqToIdx != rq.toIdx || txs[i].rqToEthAddr != rq.toEthAddr
        || txs[i].rqToBJJ != rq.toBJJ || txs[i].rqTokenID != rq.tokenID || txs[i].rqFee != rq.fee
        || txs[i].rqNonce != rq.nonce {
        assert !Linked(txs, i);
        return false;
      }
      if txs[i].rqAmount.None? || txs[i].rqAmount.value != rq.amount {
        assert !Linked(txs, i);
        return false;
      }
    }
    return true;
  }

  /** The txs of a group, in order. */
  function Members(txs: seq<PoolL2Tx>, g: AtomicGroupID): seq<PoolL2Tx> {
    if txs == [] then []
    else
      var n := |txs| - 1;
      Members(txs[..n], g) + (if txs[n].atomicGroupID == g then [txs[n]] else [])
  }

  lemma MembersSnoc(txs: seq<PoolL2Tx>, t: PoolL2Tx, g: AtomicGroupID)
    ensures Members(txs + [t], g) == Members(txs, g) + (if t.atomicGroupID == g then [t] else [])
  {
    assert (txs + [t])[..|txs|] == txs;
  }

  lemma MembersOfNone(g: AtomicGroupID)
    ensures Members([], g) == []
  {
  }

  lemma {:induction false} MembersConcat(a: seq<PoolL2Tx>, b: seq<PoolL2Tx>, g: AtomicGroupID)
    ensures Members(a + b, g) == Members(a, g) + Members(b, g)
  {
    hide Members;
    if b == [] {
      assert a + b == a;
      MembersOfNone(g);
    } else {
      var n := |b| - 1;
      MembersConcat(a, b[..n], g);
      assert a + b == (a + b[..n]) + [b[n]] && b == b[..n] + [b[n]];
      MembersSnoc(a + b[..n], b[n], g);
      MembersSnoc(b[..n], b[n], g);
    }
  }

  lemma {:induction false} MembersOf(txs: seq<PoolL2Tx>, g: AtomicGroupID)
    ensures forall t :: t in Members(txs, g) <==> t in txs && t.atomicGroupID == g
  {
    if txs != [] {
      var n := |txs| - 1;
      MembersOf(txs[..n], g);
      assert txs == txs[..n] + [txs[n]];
    }
  }

  lemma {:induction false} MembersOfOneGroup(txs: seq<PoolL2Tx>, g: AtomicGroupID)
    requires forall t :: t in txs ==> t.atomicGroupID == g
    ensures Members(txs, g) == txs
  {
    if txs != [] {
      var n := |txs| - 1;
      assert txs == txs[..n] + [txs[n]];
      MembersOfOneGroup(txs[..n], g);
    }
  }

  lemma {:induction false} GroupIsMembers(txs: seq<PoolL2Tx>, g: AtomicGroupID)
    ensures |Group(txs, g)| == |Members(txs, g)|
    ensures forall k :: 0 <= k < |Group(txs, g)| ==> Group(txs, g)[k] == Bare(Members(txs, g)[k])
  {
    hide Bare;
    if txs != [] {
      GroupIsMembers(txs[..|txs| - 1], g);
    }
  }

  /** Two lists agree on the txs of every group. */
  ghost predicate SameGroups(a: seq<PoolL2Tx>, b: seq<PoolL2Tx>) {
    forall g :: g != NO_GROUP ==> Members(a, g) == Members(b, g)
  }

  /** The txs of a list are split in two, groups of a set on one side, and all others on the other. */
  ghost predicate SplitByGroup(txs: seq<PoolL2Tx>, kept: seq<PoolL2Tx>, dropped: seq<PoolL2Tx>,
                               out: set<AtomicGroupID>) {
    && multiset(txs) == multiset(kept) + multiset(dropped)
    && forall g :: g != NO_GROUP ==> Members(kept, g) == if g in out then [] else Members(txs, g)
  }

  function Failed(groups: seq<AtomicGroupID>): set<AtomicGroupID> {
    set g | g in groups
  }

  /** Leaves out the txs of groups that failed before. */
  method FilterFailedAtomicGroups(txs: seq<PoolL2Tx>, failedGroups: seq<AtomicGroupID>)
    returns (txsToProcess: seq<PoolL2Tx>, filteredTxs: seq<PoolL2Tx>)
    ensures SplitByGroup(txs, txsToProcess, filteredTxs, Failed(failedGroups))
    ensures forall t :: t in txsToProcess ==> t.atomicGroupID == NO_GROUP || t.atomicGroupID !in failedGroups
  {
    txsToProcess, filteredTxs := [], [];
    for i := 0 to |txs|
      invariant SplitByGroup(txs[..i], txsToProcess, filteredTxs, Failed(failedGroups))
      invariant forall t :: t in txsToProcess ==> t.atomicGroupID == NO_GROUP || t.atomicGroupID !in failedGroups
    {
      assert txs[..i + 1] == txs[..i] + [txs[i]];
      var txFailed := false;
      if txs[i].atomicGroupID != NO_GROUP {
        for j := 0 to |failedGroups|
          invariant txFailed <==> txs[i].atomicGroupID in failedGroups[..j]
        {
          assert failedGroups[..j + 1] == failedGroups[..j] + [failedGroups[j]];
          if failedGroups[j] == txs[i].atomicGroupID {
            txFailed := true;
          }
        }
        assert failedGroups[..|failedGroups|] == failedGroups;
      }
      SplitByGroupNext(txs[..i], txsToProcess, filteredTxs, Failed(failedGroups), txs[i], txFailed);
      if txFailed {
        filteredTxs := filteredTxs + [txs[i]];
      } else {
        txsToProcess := txsToProcess + [txs[i]];
      }
    }
    assert txs[..|txs|] == txs;
  }

  lemma SplitByGroupNext(txs: seq<PoolL2Tx>, kept: seq<PoolL2Tx>, dropped: seq<PoolL2Tx>, out: set<AtomicGroupID>,
                  t: PoolL2Tx, drop: bool)
    requires SplitByGroup(txs, kept, dropped, out)
    requires drop <==> t.atomicGroupID != NO_GROUP && t.atomicGroupID in out
    ensures if drop then SplitByGroup(txs + [t], kept, dropped + [t], out)
            else SplitByGroup(txs + [t], kept + [t], dropped, out)
  {
    forall g
      ensures Members(txs + [t], g) == Members(txs, g) + (if t.atomicGroupID == g then [t] else [])
      ensures Members(kept + [t], g) == Members(kept, g) + (if t.atomicGroupID == g then [t] else [])
    {
      MembersSnoc(txs, t, g);
      MembersSnoc(kept, t, g);
    }
  }

  /** Collects the atomic txs by group; the others are kept in order. */
  method SeparateGroups(txs: seq<PoolL2Tx>)
    returns (nonAtomic: seq<PoolL2Tx>, atomicGroups: map<AtomicGroupID, seq<PoolL2Tx>>)
    ensures nonAtomic == Members(txs, NO_GROUP)
    ensures forall g :: g in atomicGroups <==> g != NO_GROUP && Members(txs, g) != []
    ensures forall g :: g in atomicGroups ==> atomicGroups[g] == Members(txs, g)
  {
    nonAtomic, atomicGroups := [], map[];
    for i := 0 to |txs|
      invariant nonAtomic == Members(txs[..i], NO_GROUP)
      invariant forall g :: g in atomicGroups <==> g != NO_GROUP && Members(txs[..i], g) != []
      invariant forall g :: g in atomicGroups ==> atomicGroups[g] == Members(txs[..i], g)
    {
      assert txs[..i + 1] == txs[..i] + [txs[i]];
      forall g
        ensures Members(txs[..i + 1], g) == Members(txs[..i], g) + (if txs[i].atomicGroupID == g then [txs[i]] else [])
      {
        MembersSnoc(txs[..i], txs[i], g);
      }
      var groupID := txs[i].atomicGroupID;
      if groupID == NO_GROUP {
        nonAtomic := nonAtomic + [txs[i]];
      } else {
        var group := if groupID in atomicGroups then atomicGroups[groupID] else [];
        atomicGroups := atomicGroups[groupID := group + [txs[i]]];
      }
    }
    assert txs[..|txs|] == txs;
  }

  lemma {:induction false} MembersCount(txs: seq<PoolL2Tx>, g: AtomicGroupID, t: PoolL2Tx)
    ensures multiset(Members(txs, g))[t] == if t.atomicGroupID == g then multiset(txs)[t] else 0
  {
    hide Members;
    if txs == [] {
      MembersOfNone(g);
    } else {
      var n := |txs| - 1;
      assert txs == txs[..n] + [txs[n]];
      MembersCount(txs[..n], g, t);
      MembersSnoc(txs[..n], txs[n], g);
    }
  }

  /** `list` holds the txs of `txs` that are in no group or in one of the given groups. */
  ghost predicate Holds(list: seq<PoolL2Tx>, txs: seq<PoolL2Tx>, groups: set<AtomicGroupID>) {
    forall t :: multiset(list)[t] == if t.atomicGroupID == NO_GROUP || t.atomicGroupID in groups then multiset(txs)[t] else 0
  }

  lemma HoldsNonAtomic(txs: seq<PoolL2Tx>)
    ensures Holds(Members(txs, NO_GROUP), txs, {})
  {
    forall t ensures multiset(Members(txs, NO_GROUP))[t] == if t.atomicGroupID == NO_GROUP then multiset(txs)[t] else 0 {
      MembersCount(txs, NO_GROUP, t);
    }
  }

  lemma HoldsMore(list: seq<PoolL2Tx>, txs: seq<PoolL2Tx>, groups: set<AtomicGroupID>, g: AtomicGroupID)
    requires Holds(list, txs, groups) && g !in groups && g != NO_GROUP
    ensures Holds(list + Members(txs, g), txs, groups + {g})
  {
    forall t
      ensures multiset(list + Members(txs, g))[t]
              == if t.atomicGroupID == NO_GROUP || t.atomicGroupID in groups + {g} then multiset(txs)[t] else 0
    {
      MembersCount(txs, g, t);
    }
  }

  lemma HoldsAll(list: seq<PoolL2Tx>, txs: seq<PoolL2Tx>, groups: set<AtomicGroupID>)
    requires Holds(list, txs, groups)
    requires forall g :: g != NO_GROUP && Members(txs, g) != [] ==> g in groups
    ensures multiset(list) == multiset(txs)
  {
    forall t ensures multiset(list)[t] == multiset(txs)[t] {
      MembersCount(txs, t.atomicGroupID, t);
      if t.atomicGroupID != NO_GROUP && t.atomicGroupID !in groups {
        assert Members(txs, t.atomicGroupID) == [];
      }
    }
  }

  /** The groups in `done` have been looked at; the valid ones are kept. */
  ghost predicate Filtering(txs: seq<PoolL2Tx>, kept: seq<PoolL2Tx>, dropped: seq<PoolL2Tx>, done: set<AtomicGroupID>) {
    && Holds(kept + dropped, txs, done)
    && forall g :: g != NO_GROUP ==>
         Members(kept, g) == if g in done && ValidGroup(Members(txs, g)) then Members(txs, g) else []
  }

  lemma FilteringStarts(txs: seq<PoolL2Tx>)
    ensures Filtering(txs, Members(txs, NO_GROUP), [], {})
  {
    hide ValidGroup, Members, Holds;
    HoldsNonAtomic(txs);
    assert Members(txs, NO_GROUP) + [] == Members(txs, NO_GROUP);
    forall g | g != NO_GROUP ensures Members(Members(txs, NO_GROUP), g) == [] {
      MembersOfMembers(txs, NO_GROUP, g);
    }
  }

  lemma FilteringNext(txs: seq<PoolL2Tx>, kept: seq<PoolL2Tx>, dropped: seq<PoolL2Tx>, done: set<AtomicGroupID>,
                      g: AtomicGroupID)
    requires Filtering(txs, kept, dropped, done) && g != NO_GROUP && g !in done
    ensures var group := Members(txs, g);
            if ValidGroup(group) then Filtering(txs, kept + group, dropped, done + {g})
            else Filtering(txs, kept, dropped + group, done + {g})
  {
    hide ValidGroup, Members, Holds;
    var group := Members(txs, g);
    HoldsMore(kept + dropped, txs, done, g);
    HoldsSame(kept + dropped + group, kept + group + dropped, txs, done + {g});
    HoldsSame(kept + dropped + group, kept + (dropped + group), txs, done + {g});
    forall h ensures Members(kept + group, h) == Members(kept, h) + (if h == g then group else []) {
      MembersConcat(kept, group, h);
      MembersOfMembers(txs, g, h);
    }
  }

  lemma FilteringEnds(txs: seq<PoolL2Tx>, kept: seq<PoolL2Tx>, dropped: seq<PoolL2Tx>, done: set<AtomicGroupID>)
    requires Filtering(txs, kept, dropped, done)
    requires forall g :: g != NO_GROUP && Members(txs, g) != [] ==> g in done
    ensures multiset(txs) == multiset(kept) + multiset(dropped)
    ensures forall g :: g != NO_GROUP ==> Members(kept, g) == if ValidGroup(Members(txs, g)) then Members(txs, g) else []
  {
    hide ValidGroup, Members, Holds;
    HoldsAll(kept + dropped, txs, done);
  }

  /** Leaves out the groups with missing or badly ordered txs. */
  method FilterInvalidAtomicGroups(txs: seq<PoolL2Tx>)
    returns (txsToProcess: seq<PoolL2Tx>, filteredTxs: seq<PoolL2Tx>)
    ensures multiset(txs) == multiset(txsToProcess) + multiset(filteredTxs)
    ensures forall g :: g != NO_GROUP ==>
              Members(txsToProcess, g) == if ValidGroup(Members(txs, g)) then Members(txs, g) else []
  {
    hide ValidGroup, Members, Filtering;
    var nonAtomic, atomicGroups := SeparateGroups(txs);
    txsToProcess, filteredTxs := nonAtomic, [];
    var remaining := atomicGroups.Keys;
    FilteringStarts(txs);
    ghost var done := {};
    while remaining != {}
      invariant done !! remaining && done + remaining == atomicGroups.Keys
      invariant Filtering(txs, txsToProcess, filteredTxs, done)
    {
      var g :| g in remaining;
      assert g in atomicGroups;
      var group := atomicGroups[g];
      var valid := IsAtomicGroupValid(group);
      FilteringNext(txs, txsToProcess, filteredTxs, done, g);
      if valid {
        txsToProcess := txsToProcess + group;
      } else {
        filteredTxs := filteredTxs + group;
      }
      remaining, done := remaining - {g}, done + {g};
    }
    FilteringEnds(txs, txsToProcess, filteredTxs, done);
  }

  lemma HoldsSame(a: seq<PoolL2Tx>, b: seq<PoolL2Tx>, txs: seq<PoolL2Tx>, groups: set<AtomicGroupID>)
    requires Holds(a, txs, groups) && multiset(a) == multiset(b)
    ensures Holds(b, txs, groups)
  {
  }

  lemma {:induction false} NoMembersIff(txs: seq<PoolL2Tx>, g: AtomicGroupID)
    ensures Members(txs, g) == [] <==> forall t :: t in txs ==> t.atomicGroupID != g
  {
    if txs != [] {
      var n := |txs| - 1;
      NoMembersIff(txs[..n], g);
      assert txs == txs[..n] + [txs[n]];
    }
  }

  lemma MembersOfMembers(txs: seq<PoolL2Tx>, g: AtomicGroupID, h: AtomicGroupID)
    ensures Members(Members(txs, g), h) == if h == g then Members(txs, g) else []
  {
    MembersOf(txs, g);
    if h == g {
      MembersOfOneGroup(Members(txs, g), g);
    } else {
      NoMembersIff(Members(txs, g), h);
    }
  }
}
