/** The order in which the selector tries its candidates (txselector/txselector.go). */
module Sorting {
  import opened Wrappers
  import opened Common
  import opened Choices
  import opened Groups
  import opened AtomicGroups

  // ---- Average fees ----

  function SumFee(txs: seq<PoolL2Tx>): real {
    if txs == [] then 0.0 else SumFee(txs[..|txs| - 1]) + txs[|txs| - 1].absoluteFee
  }

  function AverageFee(txs: seq<PoolL2Tx>): real
    requires txs != []
  {
    SumFee(txs) / |txs| as real
  }

  lemma SumFeeSnoc(txs: seq<PoolL2Tx>, t: PoolL2Tx)
    ensures SumFee(txs + [t]) == SumFee(txs) + t.absoluteFee
  {
    assert (txs + [t])[..|txs|] == txs;
  }

  /** For every group the average fee of its txs. */
  method CalculateAtomicGroupsAverageFee(txs: seq<PoolL2Tx>) returns (fees: map<AtomicGroupID, real>)
    ensures forall g :: g in fees <==> g != NO_GROUP && Members(txs, g) != []
    ensures forall g :: g in fees ==> fees[g] == AverageFee(Members(txs, g))
  {
    hide Members, SumFee;
    var sum: map<AtomicGroupID, real>, count: map<AtomicGroupID, nat> := map[], map[];
    MembersOfNobody();
    for i := 0 to |txs|
      invariant sum.Keys == count.Keys
      invariant forall g :: g in count <==> g != NO_GROUP && Members(txs[..i], g) != []
      invariant forall g :: g in count ==> count[g] == |Members(txs[..i], g)| && sum[g] == SumFee(Members(txs[..i], g))
    {
      assert txs[..i + 1] == txs[..i] + [txs[i]];
      forall g
        ensures Members(txs[..i + 1], g)
                == if txs[i].atomicGroupID == g then Members(txs[..i], g) + [txs[i]] else Members(txs[..i], g)
      {
        MembersSnoc(txs[..i], txs[i], g);
      }
      var g := txs[i].atomicGroupID;
      if g != NO_GROUP {
        SumFeeSnoc(Members(txs[..i], g), txs[i]);
        if g !in sum {
          SumFeeOfNone();
          sum, count := sum[g := txs[i].absoluteFee], count[g := 1];
        } else {
          sum, count := sum[g := sum[g] + txs[i].absoluteFee], count[g := count[g] + 1];
        }
      }
    }
    assert txs[..|txs|] == txs;
    fees := map g | g in sum :: sum[g] / count[g] as real;
  }

  lemma MembersOfNobody()
    ensures forall g :: Members([], g) == []
  {
  }

  lemma SumFeeOfNone()
    ensures SumFee([]) == 0.0
  {
  }

  // ---- The order ----

  type Fees = map<AtomicGroupID, real>

  /** The fee that a tx is sorted by: its own, or the average of its group. */
  function Key(fees: Fees, tx: PoolL2Tx): real {
    if tx.atomicGroupID == NO_GROUP then tx.absoluteFee
    else if tx.atomicGroupID in fees then fees[tx.atomicGroupID] else 0.0
  }

  /**
   Higher fees come first. Of equal ones, groups come before single txs, and single txs go by
   sender and nonce.
   */
  predicate Before(fees: Fees, a: PoolL2Tx, b: PoolL2Tx) {
    || Key(fees, a) > Key(fees, b)
    || (Key(fees, a) == Key(fees, b)
        && (a.atomicGroupID == NO_GROUP ==>
              b.atomicGroupID == NO_GROUP && (a.fromIdx < b.fromIdx || (a.fromIdx == b.fromIdx && a.nonce <= b.nonce))))
  }

  ghost predicate Ordered(fees: Fees, txs: seq<PoolL2Tx>) {
    forall i, j :: 0 <= i < j < |txs| ==> Before(fees, txs[i], txs[j])
  }

  /** The comparison that sorts the txs outside of groups. */
  predicate Less(a: PoolL2Tx, b: PoolL2Tx) {
    if a.absoluteFee != b.absoluteFee then a.absoluteFee > b.absoluteFee
    else if a.fromIdx != b.fromIdx then a.fromIdx < b.fromIdx
    else a.nonce < b.nonce
  }

  ghost predicate SortedTxs(txs: seq<PoolL2Tx>) {
    forall i, j :: 0 <= i < j < |txs| ==> !Less(txs[j], txs[i])
  }

  lemma NotLessIsTransitive(a: PoolL2Tx, b: PoolL2Tx, c: PoolL2Tx)
    requires !Less(b, a) && !Less(c, b)
    ensures !Less(c, a)
  {
  }

  lemma LessIsAsymmetric(a: PoolL2Tx, b: PoolL2Tx)
    ensures Less(a, b) ==> !Less(b, a)
  {
  }

  /** A tx goes behind those it is not less than and before those it is less than. */
  lemma InsertSorted(sorted: seq<PoolL2Tx>, k: nat, t: PoolL2Tx)
    requires k <= |sorted| && SortedTxs(sorted)
    requires k > 0 ==> !Less(t, sorted[k - 1])
    requires forall j :: k <= j < |sorted| ==> Less(t, sorted[j])
    ensures SortedTxs(sorted[..k] + [t] + sorted[k..])
    ensures multiset(sorted[..k] + [t] + sorted[k..]) == multiset(sorted) + multiset{t}
  {
    hide Less;
    assert sorted == sorted[..k] + sorted[k..];
    forall i | 0 <= i < k ensures !Less(t, sorted[i]) {
      if i < k - 1 {
        NotLessIsTransitive(sorted[i], sorted[k - 1], t);
      }
    }
    forall j | k <= j < |sorted| ensures !Less(sorted[j], t) {
      LessIsAsymmetric(t, sorted[j]);
    }
  }

  method SortNonAtomic(txs: seq<PoolL2Tx>) returns (sorted: seq<PoolL2Tx>)
    ensures multiset(sorted) == multiset(txs) && SortedTxs(sorted)
  {
    hide SortedTxs, Less;
    sorted := [];
    SortedNone();
    for i := 0 to |txs|
      invariant multiset(sorted) == multiset(txs[..i]) && SortedTxs(sorted)
    {
      var k := |sorted|;
      while k > 0 && Less(txs[i], sorted[k - 1])
        invariant 0 <= k <= |sorted|
        invariant forall j :: k <= j < |sorted| ==> Less(txs[i], sorted[j])
      {
        k := k - 1;
      }
      assert txs[..i + 1] == txs[..i] + [txs[i]];
      InsertSorted(sorted, k, txs[i]);
      sorted := sorted[..k] + [txs[i]] + sorted[k..];
    }
    assert txs[..|txs|] == txs;
  }

  lemma SortedNone()
    ensures SortedTxs([])
  {
  }

  /** The fee that a group is sorted by. */
  function GroupKey(fees: Fees, group: seq<PoolL2Tx>): real {
    if group == [] then 0.0 else Key(fees, group[0])
  }

  ghost predicate SortedGroups(fees: Fees, groups: seq<seq<PoolL2Tx>>) {
    forall i, j :: 0 <= i < j < |groups| ==> GroupKey(fees, groups[i]) >= GroupKey(fees, groups[j])
  }

  /** The groups of a list of txs, each once. */
  ghost predicate GroupsOf(txs: seq<PoolL2Tx>, groups: seq<seq<PoolL2Tx>>) {
    && (forall k :: 0 <= k < |groups| ==>
          && groups[k] != [] && groups[k][0].atomicGroupID != NO_GROUP
          && groups[k] == Members(txs, groups[k][0].atomicGroupID))
    && (forall j, k :: 0 <= j < k < |groups| ==> groups[j] != groups[k])
  }

  /** A group that is not listed yet goes behind those with at least its fee. */
  lemma InsertKeepsOrder(fees: Fees, sorted: seq<seq<PoolL2Tx>>, k: nat, group: seq<PoolL2Tx>)
    requires k <= |sorted| && SortedGroups(fees, sorted)
    requires k > 0 ==> GroupKey(fees, group) <= GroupKey(fees, sorted[k - 1])
    requires forall j :: k <= j < |sorted| ==> GroupKey(fees, group) > GroupKey(fees, sorted[j])
    ensures SortedGroups(fees, sorted[..k] + [group] + sorted[k..])
  {
    hide GroupKey;
    var more := sorted[..k] + [group] + sorted[k..];
    forall i, j | 0 <= i < j < |more| ensures GroupKey(fees, more[i]) >= GroupKey(fees, more[j]) {
      assert i < k - 1 ==> GroupKey(fees, sorted[i]) >= GroupKey(fees, sorted[k - 1]);
    }
  }

  lemma InsertKeepsGroups(txs: seq<PoolL2Tx>, sorted: seq<seq<PoolL2Tx>>, k: nat, group: seq<PoolL2Tx>)
    requires k <= |sorted| && GroupsOf(txs, sorted) && GroupsOf(txs, [group]) && group !in sorted
    ensures GroupsOf(txs, sorted[..k] + [group] + sorted[k..])
    ensures forall g :: g in sorted[..k] + [group] + sorted[k..] <==> g in sorted || g == group
  {
    hide Members;
    var more := sorted[..k] + [group] + sorted[k..];
    assert sorted == sorted[..k] + sorted[k..];
    assert [group][0] == group;
    forall i, j | 0 <= i < j < |more| ensures more[i] != more[j] {
      var a, b := if i < k then i else i - 1, if j < k then j else j - 1;
      assert i != k ==> more[i] == sorted[a] && sorted[a] in sorted;
      assert j != k ==> more[j] == sorted[b] && sorted[b] in sorted;
    }
  }

  method SortGroups(fees: Fees, groups: seq<seq<PoolL2Tx>>, ghost txs: seq<PoolL2Tx>)
    returns (sorted: seq<seq<PoolL2Tx>>)
    requires GroupsOf(txs, groups)
    ensures GroupsOf(txs, sorted) && SortedGroups(fees, sorted)
    ensures forall group :: group in sorted <==> group in groups
  {
    hide Members, GroupKey, SortedGroups, GroupsOf;
    sorted := [];
    NoGroups(fees, txs);
    for i := 0 to |groups|
      invariant GroupsOf(txs, sorted) && SortedGroups(fees, sorted)
      invariant forall group :: group in sorted <==> group in groups[..i]
    {
      var group := groups[i];
      var k := |sorted|;
      while k > 0 && GroupKey(fees, group) > GroupKey(fees, sorted[k - 1])
        invariant 0 <= k <= |sorted|
        invariant forall j :: k <= j < |sorted| ==> GroupKey(fees, group) > GroupKey(fees, sorted[j])
      {
        k := k - 1;
      }
      assert groups[..i + 1] == groups[..i] + [group];
      NextGroup(txs, groups, i);
      InsertKeepsOrder(fees, sorted, k, group);
      InsertKeepsGroups(txs, sorted, k, group);
      sorted := sorted[..k] + [group] + sorted[k..];
    }
    assert groups[..|groups|] == groups;
  }

  lemma NoGroups(fees: Fees, txs: seq<PoolL2Tx>)
    ensures GroupsOf(txs, []) && SortedGroups(fees, [])
  {
  }

  lemma NextGroup(txs: seq<PoolL2Tx>, groups: seq<seq<PoolL2Tx>>, i: nat)
    requires GroupsOf(txs, groups) && i < |groups|
    ensures GroupsOf(txs, [groups[i]]) && groups[i] !in groups[..i]
  {
    hide Members;
  }

  // ---- Groups in a row ----

  function Flat(groups: seq<seq<PoolL2Tx>>): seq<PoolL2Tx> {
    if groups == [] then [] else Flat(groups[..|groups| - 1]) + groups[|groups| - 1]
  }

  ghost function GroupIds(groups: seq<seq<PoolL2Tx>>): set<AtomicGroupID> {
    set k | 0 <= k < |groups| && groups[k] != [] :: groups[k][0].atomicGroupID
  }

  lemma GroupIdsNext(groups: seq<seq<PoolL2Tx>>)
    requires groups != [] && groups[|groups| - 1] != []
    ensures GroupIds(groups) == GroupIds(groups[..|groups| - 1]) + {groups[|groups| - 1][0].atomicGroupID}
  {
    var n := |groups| - 1;
    forall g | g in GroupIds(groups) ensures g in GroupIds(groups[..n]) + {groups[n][0].atomicGroupID} {
      var k :| 0 <= k < |groups| && groups[k] != [] && groups[k][0].atomicGroupID == g;
      assert k < n ==> groups[..n][k] == groups[k];
    }
    forall g | g in GroupIds(groups[..n]) ensures g in GroupIds(groups) {
      var k :| 0 <= k < n && groups[..n][k] != [] && groups[..n][k][0].atomicGroupID == g;
      assert groups[k] == groups[..n][k];
    }
  }

  /** Together with the txs in no group the list holds these groups, and nothing else. */
  ghost predicate Consists(txs: seq<PoolL2Tx>, flat: seq<PoolL2Tx>, ids: set<AtomicGroupID>) {
    && Holds(Members(txs, NO_GROUP) + flat, txs, ids)
    && forall g :: g != NO_GROUP ==> Members(flat, g) == if g in ids then Members(txs, g) else []
  }

  lemma ConsistsOfNone(txs: seq<PoolL2Tx>)
    ensures Consists(txs, [], {})
  {
    hide Holds;
    HoldsNonAtomic(txs);
    assert Members(txs, NO_GROUP) + [] == Members(txs, NO_GROUP);
  }

  lemma ConsistsNext(txs: seq<PoolL2Tx>, flat: seq<PoolL2Tx>, ids: set<AtomicGroupID>, id: AtomicGroupID)
    requires Consists(txs, flat, ids) && id != NO_GROUP && id !in ids
    ensures Consists(txs, flat + Members(txs, id), ids + {id})
  {
    hide Members, Holds;
    HoldsMore(Members(txs, NO_GROUP) + flat, txs, ids, id);
    assert Members(txs, NO_GROUP) + (flat + Members(txs, id)) == Members(txs, NO_GROUP) + flat + Members(txs, id);
    forall g
      ensures Members(flat + Members(txs, id), g)
              == if g == id then Members(flat, g) + Members(txs, id) else Members(flat, g)
    {
      MembersConcat(flat, Members(txs, id), g);
      MembersOfMembers(txs, id, g);
    }
  }

  lemma {:induction false} FlatConsists(txs: seq<PoolL2Tx>, groups: seq<seq<PoolL2Tx>>)
    requires GroupsOf(txs, groups)
    ensures Consists(txs, Flat(groups), GroupIds(groups))
  {
    hide Members, Consists;
    if groups == [] {
      ConsistsOfNone(txs);
      assert GroupIds(groups) == {};
    } else {
      var n := |groups| - 1;
      FlatConsists(txs, groups[..n]);
      NewGroupId(txs, groups);
      GroupIdsNext(groups);
      ConsistsNext(txs, Flat(groups[..n]), GroupIds(groups[..n]), groups[n][0].atomicGroupID);
    }
  }

  lemma NewGroupId(txs: seq<PoolL2Tx>, groups: seq<seq<PoolL2Tx>>)
    requires GroupsOf(txs, groups) && groups != []
    ensures groups[|groups| - 1][0].atomicGroupID !in GroupIds(groups[..|groups| - 1])
  {
    hide Members;
    var n := |groups| - 1;
    forall k | 0 <= k < n ensures groups[k][0].atomicGroupID != groups[n][0].atomicGroupID {
      assert groups[k] != groups[n];
    }
  }

  // ---- Merging ----

  /** The first `j` single txs and the first `k` groups have been merged. */
  ghost predicate Merged(fees: Fees, txs: seq<PoolL2Tx>, nonAtomic: seq<PoolL2Tx>, groups: seq<seq<PoolL2Tx>>,
                         list: seq<PoolL2Tx>, j: nat, k: nat)
  {
    && j <= |nonAtomic| && k <= |groups|
    && multiset(list) == multiset(nonAtomic[..j]) + multiset(Flat(groups[..k]))
    && (forall g :: g != NO_GROUP ==> Members(list, g) == Members(Flat(groups[..k]), g))
    && Contiguous(list) && Ordered(fees, list)
    && (forall t, i :: t in list && j <= i < |nonAtomic| ==> Before(fees, t, nonAtomic[i]))
    && (forall t, i :: t in list && k <= i < |groups| ==> GroupBefore(fees, t, groups[i]))
  }

  /** Every tx of the group may follow `t`. */
  ghost predicate GroupBefore(fees: Fees, t: PoolL2Tx, group: seq<PoolL2Tx>) {
    forall u :: u in group ==> Before(fees, t, u)
  }

  /** What the merge works on. */
  ghost predicate Mergeable(fees: Fees, txs: seq<PoolL2Tx>, nonAtomic: seq<PoolL2Tx>, groups: seq<seq<PoolL2Tx>>) {
    && SortedTxs(nonAtomic) && (forall t :: t in nonAtomic ==> t.atomicGroupID == NO_GROUP)
    && GroupsOf(txs, groups) && SortedGroups(fees, groups)
  }

  lemma OneGroup(txs: seq<PoolL2Tx>, groups: seq<seq<PoolL2Tx>>, k: nat)
    requires GroupsOf(txs, groups) && k < |groups|
    ensures forall t :: t in groups[k] ==> t.atomicGroupID == groups[k][0].atomicGroupID
  {
    MembersOf(txs, groups[k][0].atomicGroupID);
  }

  lemma OrderedConcat(fees: Fees, a: seq<PoolL2Tx>, b: seq<PoolL2Tx>)
    requires Ordered(fees, a) && Ordered(fees, b)
    requires forall s, t :: s in a && t in b ==> Before(fees, s, t)
    ensures Ordered(fees, a + b)
  {
    hide Before;
  }

  lemma MergeSingle(fees: Fees, txs: seq<PoolL2Tx>, nonAtomic: seq<PoolL2Tx>, groups: seq<seq<PoolL2Tx>>,
                    list: seq<PoolL2Tx>, j: nat, k: nat)
    requires Mergeable(fees, txs, nonAtomic, groups) && Merged(fees, txs, nonAtomic, groups, list, j, k) && j < |nonAtomic|
    requires k < |groups| ==> nonAtomic[j].absoluteFee > GroupKey(fees, groups[k])
    ensures Merged(fees, txs, nonAtomic, groups, list + [nonAtomic[j]], j + 1, k)
  {
    hide Members, Flat, Contiguous, Ordered;
    var t := nonAtomic[j];
    assert t in nonAtomic;
    assert nonAtomic[..j + 1] == nonAtomic[..j] + [t];
    forall g | g != NO_GROUP ensures Members(list + [t], g) == Members(list, g) {
      MembersSnoc(list, t, g);
    }
    SingleContiguous(list, t);
    SingleOrdered(fees, t);
    OrderedConcat(fees, list, [t]);
    forall i | k <= i < |groups| ensures GroupBefore(fees, t, groups[i]) {
      OneGroup(txs, groups, i);
      assert k < i ==> GroupKey(fees, groups[k]) >= GroupKey(fees, groups[i]);
    }
    forall i | j + 1 <= i < |nonAtomic| ensures Before(fees, t, nonAtomic[i]) {
      assert nonAtomic[i] in nonAtomic;
    }
  }

  lemma SingleContiguous(list: seq<PoolL2Tx>, t: PoolL2Tx)
    requires Contiguous(list) && t.atomicGroupID == NO_GROUP
    ensures Contiguous(list + [t])
  {
  }

  lemma SingleOrdered(fees: Fees, t: PoolL2Tx)
    ensures Ordered(fees, [t])
  {
  }

  lemma MergeGroup(fees: Fees, txs: seq<PoolL2Tx>, nonAtomic: seq<PoolL2Tx>, groups: seq<seq<PoolL2Tx>>,
                   list: seq<PoolL2Tx>, j: nat, k: nat)
    requires Mergeable(fees, txs, nonAtomic, groups) && Merged(fees, txs, nonAtomic, groups, list, j, k) && k < |groups|
    requires j < |nonAtomic| ==> nonAtomic[j].absoluteFee <= GroupKey(fees, groups[k])
    ensures Merged(fees, txs, nonAtomic, groups, list + groups[k], j, k + 1)
  {
    hide Members, Contiguous, Ordered;
    var group := groups[k];
    OneGroup(txs, groups, k);
    assert groups[..k + 1][..k] == groups[..k];
    MergesGroup(txs, groups, list, k);
    GroupOrdered(fees, group);
    forall s, t | s in list && t in group ensures Before(fees, s, t) {
      assert GroupBefore(fees, s, group);
    }
    OrderedConcat(fees, list, group);
    forall t, i | t in group && j <= i < |nonAtomic| ensures Before(fees, t, nonAtomic[i]) {
      assert nonAtomic[i] in nonAtomic && nonAtomic[j] in nonAtomic;
      assert j < i ==> !Less(nonAtomic[i], nonAtomic[j]);
    }
    forall t, i | t in group && k + 1 <= i < |groups| ensures GroupBefore(fees, t, groups[i]) {
      OneGroup(txs, groups, i);
    }
  }

  lemma GroupOrdered(fees: Fees, group: seq<PoolL2Tx>)
    requires group != [] && group[0].atomicGroupID != NO_GROUP
    requires forall t :: t in group ==> t.atomicGroupID == group[0].atomicGroupID
    ensures Ordered(fees, group)
  {
    forall i, j | 0 <= i < j < |group| ensures Before(fees, group[i], group[j]) {
      assert group[i] in group && group[j] in group;
    }
  }

  /** A new group goes to the end of the list in one piece. */
  lemma MergesGroup(txs: seq<PoolL2Tx>, groups: seq<seq<PoolL2Tx>>, list: seq<PoolL2Tx>, k: nat)
    requires GroupsOf(txs, groups) && k < |groups| && Contiguous(list)
    requires forall g :: g != NO_GROUP ==> Members(list, g) == Members(Flat(groups[..k]), g)
    ensures Contiguous(list + groups[k])
    ensures forall g :: g != NO_GROUP ==> Members(list + groups[k], g) == Members(Flat(groups[..k + 1]), g)
  {
    hide Members;
    var group := groups[k];
    var id := group[0].atomicGroupID;
    assert groups[..k + 1][..k] == groups[..k];
    OneGroup(txs, groups, k);
    forall g | g != NO_GROUP ensures Members(list + group, g) == Members(Flat(groups[..k + 1]), g) {
      MembersConcat(list, group, g);
      MembersConcat(Flat(groups[..k]), group, g);
    }
    FlatConsists(txs, groups[..k]);
    NewGroupId(txs, groups[..k + 1]);
    assert Members(list, id) == [];
    MembersOf(list, id);
    GroupContiguous(group);
    ContiguousConcat(list, group);
  }

  lemma GroupContiguous(group: seq<PoolL2Tx>)
    requires group != [] && forall t :: t in group ==> t.atomicGroupID == group[0].atomicGroupID
    ensures Contiguous(group)
  {
    forall i | 0 <= i < |group| ensures group[i].atomicGroupID == group[0].atomicGroupID {
      assert group[i] in group;
    }
  }

  /**
   Sorts the candidates: the same txs, higher fees first, every group in one piece and in its
   order.
   */
  method SortL2Txs(txs: seq<PoolL2Tx>, atomicGroupsFee: Fees) returns (sorted: seq<PoolL2Tx>)
    ensures multiset(sorted) == multiset(txs)
    ensures Contiguous(sorted) && Ordered(atomicGroupsFee, sorted)
    ensures SameGroups(sorted, txs)
  {
    hide Members, Mergeable, Merged, Contiguous, Ordered, Before;
    var nonAtomic, groups := PrepareMerge(txs, atomicGroupsFee);
    sorted := [];
    var j, k := 0, 0;
    MergeStarts(atomicGroupsFee, txs, nonAtomic, groups);
    while j != |nonAtomic| && k != |groups|
      invariant j <= |nonAtomic| && k <= |groups|
      invariant Merged(atomicGroupsFee, txs, nonAtomic, groups, sorted, j, k)
      decreases |nonAtomic| - j + |groups| - k
    {
      if nonAtomic[j].absoluteFee > GroupKey(atomicGroupsFee, groups[k]) {
        MergeSingle(atomicGroupsFee, txs, nonAtomic, groups, sorted, j, k);
        sorted := sorted + [nonAtomic[j]];
        j := j + 1;
      } else {
        MergeGroup(atomicGroupsFee, txs, nonAtomic, groups, sorted, j, k);
        sorted := sorted + groups[k];
        k := k + 1;
      }
    }
    if j == |nonAtomic| {
      while k < |groups|
        invariant k <= |groups| && Merged(atomicGroupsFee, txs, nonAtomic, groups, sorted, j, k)
      {
        MergeGroup(atomicGroupsFee, txs, nonAtomic, groups, sorted, j, k);
        sorted := sorted + groups[k];
        k := k + 1;
      }
    } else {
      while j < |nonAtomic|
        invariant j <= |nonAtomic| && Merged(atomicGroupsFee, txs, nonAtomic, groups, sorted, j, k)
      {
        MergeSingle(atomicGroupsFee, txs, nonAtomic, groups, sorted, j, k);
        sorted := sorted + [nonAtomic[j]];
        j := j + 1;
      }
    }
    MergeEnds(atomicGroupsFee, txs, nonAtomic, groups, sorted);
  }

  lemma MergeStarts(fees: Fees, txs: seq<PoolL2Tx>, nonAtomic: seq<PoolL2Tx>, groups: seq<seq<PoolL2Tx>>)
    ensures Merged(fees, txs, nonAtomic, groups, [], 0, 0)
  {
  }

  /** The list that the merge has to produce consists of these parts. */
  ghost predicate Parts(txs: seq<PoolL2Tx>, nonAtomic: seq<PoolL2Tx>, groups: seq<seq<PoolL2Tx>>) {
    && multiset(nonAtomic) == multiset(Members(txs, NO_GROUP))
    && GroupsOf(txs, groups)
    && forall g :: g != NO_GROUP && Members(txs, g) != [] ==> Members(txs, g) in groups
  }

  lemma MergeEnds(fees: Fees, txs: seq<PoolL2Tx>, nonAtomic: seq<PoolL2Tx>, groups: seq<seq<PoolL2Tx>>,
                  list: seq<PoolL2Tx>)
    requires Parts(txs, nonAtomic, groups) && Merged(fees, txs, nonAtomic, groups, list, |nonAtomic|, |groups|)
    ensures multiset(list) == multiset(txs) && Contiguous(list) && Ordered(fees, list) && SameGroups(list, txs)
  {
    hide Members, Flat, Before, Contiguous, Ordered, Holds;
    assert nonAtomic[..|nonAtomic|] == nonAtomic && groups[..|groups|] == groups;
    FlatConsists(txs, groups);
    forall g | g != NO_GROUP && Members(txs, g) != [] ensures g in GroupIds(groups) {
      var k :| 0 <= k < |groups| && groups[k] == Members(txs, g);
      MembersOf(txs, g);
      assert groups[k][0] in Members(txs, g);
    }
    HoldsAll(Members(txs, NO_GROUP) + Flat(groups), txs, GroupIds(groups));
  }

  /** Separates the groups from the single txs and sorts both. */
  method PrepareMerge(txs: seq<PoolL2Tx>, fees: Fees) returns (nonAtomic: seq<PoolL2Tx>, groups: seq<seq<PoolL2Tx>>)
    ensures Mergeable(fees, txs, nonAtomic, groups) && Parts(txs, nonAtomic, groups)
  {
    hide Members, SortedTxs, SortedGroups;
    var groupsMap;
    nonAtomic, groupsMap := SeparateGroups(txs);
    groups := [];
    var remaining := groupsMap.Keys;
    while remaining != {}
      invariant remaining <= groupsMap.Keys
      invariant GroupsOf(txs, groups)
      invariant forall k :: 0 <= k < |groups| ==> groups[k][0].atomicGroupID !in remaining
      invariant forall g :: g in groupsMap && g !in remaining ==> groupsMap[g] in groups
    {
      var g :| g in remaining;
      MembersOf(txs, g);
      assert groupsMap[g][0] in Members(txs, g);
      groups := groups + [groupsMap[g]];
      remaining := remaining - {g};
    }
    var sorted := SortGroups(fees, groups, txs);
    groups := sorted;
    MembersOf(txs, NO_GROUP);
    ghost var single := nonAtomic;
    nonAtomic := SortNonAtomic(nonAtomic);
    forall t | t in nonAtomic ensures t.atomicGroupID == NO_GROUP {
      assert t in multiset(nonAtomic);
      assert t in multiset(single);
    }
    forall g | g != NO_GROUP && Members(txs, g) != [] ensures Members(txs, g) in groups {
      assert g in groupsMap;
    }
  }
}
