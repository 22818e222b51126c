/** Lists of pool txs: who is in them, and how their atomic groups lie in them. */
module Groups {
  import opened Wrappers
  import opened Common
  import opened Choices

  /** The ids of a list. */
  function Ids(txs: seq<PoolL2Tx>): multiset<TxID> {
    if txs == [] then multiset{} else Ids(txs[..|txs| - 1]) + multiset{txs[|txs| - 1].txID}
  }

  /** The txs of one group, in order and without what the selector fills in. */
  function Group(txs: seq<PoolL2Tx>, g: AtomicGroupID): seq<PoolL2Tx> {
    if txs == [] then []
    else
      var n := |txs| - 1;
      Group(txs[..n], g) + (if txs[n].atomicGroupID == g then [Bare(txs[n])] else [])
  }

  /** Nothing lies between two txs of the same group. */
  ghost predicate Contiguous(txs: seq<PoolL2Tx>) {
    forall a, b, c :: 0 <= a < b < c < |txs| && txs[a].atomicGroupID == txs[c].atomicGroupID != NO_GROUP ==>
      txs[b].atomicGroupID == txs[a].atomicGroupID
  }

  lemma IdsSnoc(txs: seq<PoolL2Tx>, t: PoolL2Tx)
    ensures Ids(txs + [t]) == Ids(txs) + multiset{t.txID}
  {
    assert (txs + [t])[..|txs|] == txs;
  }

  lemma GroupSnoc(txs: seq<PoolL2Tx>, t: PoolL2Tx, g: AtomicGroupID)
    ensures Group(txs + [t], g) == Group(txs, g) + (if t.atomicGroupID == g then [Bare(t)] else [])
  {
    assert (txs + [t])[..|txs|] == txs;
  }

  lemma IdsEmpty()
    ensures Ids([]) == multiset{}
  {
  }

  lemma {:induction false} IdsConcat(a: seq<PoolL2Tx>, b: seq<PoolL2Tx>)
    ensures Ids(a + b) == Ids(a) + Ids(b)
  {
    hide Ids;
    if b == [] {
      assert a + b == a;
      IdsEmpty();
    } else {
      var n := |b| - 1;
      IdsConcat(a, b[..n]);
      IdsConcatNext(a, b[..n], b[n]);
      assert b == b[..n] + [b[n]];
    }
  }

  lemma IdsConcatNext(a: seq<PoolL2Tx>, c: seq<PoolL2Tx>, t: PoolL2Tx)
    requires Ids(a + c) == Ids(a) + Ids(c)
    ensures Ids(a + (c + [t])) == Ids(a) + Ids(c + [t])
  {
    hide Ids;
    IdsSnoc(a + c, t);
    IdsSnoc(c, t);
    assert a + (c + [t]) == a + c + [t];
  }

  lemma {:induction false} GroupConcat(a: seq<PoolL2Tx>, b: seq<PoolL2Tx>, g: AtomicGroupID)
    ensures Group(a + b, g) == Group(a, g) + Group(b, g)
  {
    if b == [] {
      assert a + b == a;
    } else {
      var n := |b| - 1;
      GroupConcat(a, b[..n], g);
      assert a + b == (a + b[..n]) + [b[n]];
      GroupSnoc(a + b[..n], b[n], g);
    }
  }

  lemma {:induction false} GroupEmptyIff(txs: seq<PoolL2Tx>, g: AtomicGroupID)
    ensures Group(txs, g) == [] <==> forall tx :: tx in txs ==> tx.atomicGroupID != g
  {
    if txs != [] {
      var n := |txs| - 1;
      GroupEmptyIff(txs[..n], g);
      assert txs == txs[..n] + [txs[n]];
    }
  }

  // ---- Sublists ----

  /** `sub` is `txs` with some txs left out; `f` says where each one comes from. */
  ghost predicate Embeds(sub: seq<PoolL2Tx>, txs: seq<PoolL2Tx>, f: seq<nat>) {
    && |f| == |sub|
    && (forall k :: 0 <= k < |f| ==> f[k] < |txs| && Bare(sub[k]) == Bare(txs[f[k]]))
    && (forall j, k :: 0 <= j < k < |f| ==> f[j] < f[k])
  }

  ghost predicate Sublist(sub: seq<PoolL2Tx>, txs: seq<PoolL2Tx>) {
    exists f: seq<nat> :: Embeds(sub, txs, f)
  }

  lemma SublistEmpty(txs: seq<PoolL2Tx>)
    ensures Sublist([], txs)
  {
    var f: seq<nat> := [];
    assert Embeds([], txs, f);
  }

  lemma SublistSkip(sub: seq<PoolL2Tx>, txs: seq<PoolL2Tx>, tx: PoolL2Tx)
    requires Sublist(sub, txs)
    ensures Sublist(sub, txs + [tx])
  {
    var f: seq<nat> :| Embeds(sub, txs, f);
    assert Embeds(sub, txs + [tx], f);
  }

  lemma SublistTake(sub: seq<PoolL2Tx>, txs: seq<PoolL2Tx>, t: PoolL2Tx, tx: PoolL2Tx)
    requires Sublist(sub, txs) && Bare(t) == Bare(tx)
    ensures Sublist(sub + [t], txs + [tx])
  {
    var f: seq<nat> :| Embeds(sub, txs, f);
    var more: seq<nat> := f + [|txs|];
    assert Embeds(sub + [t], txs + [tx], more);
  }

  lemma SublistContiguous(sub: seq<PoolL2Tx>, txs: seq<PoolL2Tx>)
    requires Sublist(sub, txs) && Contiguous(txs)
    ensures Contiguous(sub)
  {
    hide Bare;
    var f: seq<nat> :| Embeds(sub, txs, f);
    forall k | 0 <= k < |sub| ensures sub[k].atomicGroupID == txs[f[k]].atomicGroupID {
      SameGroup(sub[k], txs[f[k]]);
    }
    forall a, b, c | 0 <= a < b < c < |sub| && sub[a].atomicGroupID == sub[c].atomicGroupID != NO_GROUP
      ensures sub[b].atomicGroupID == sub[a].atomicGroupID
    {
      assert f[a] < f[b] < f[c];
    }
  }

  lemma SublistMembers(sub: seq<PoolL2Tx>, txs: seq<PoolL2Tx>, t: PoolL2Tx)
    requires Sublist(sub, txs) && t in sub
    ensures exists tx :: tx in txs && Bare(tx) == Bare(t)
  {
    var f: seq<nat> :| Embeds(sub, txs, f);
    var k :| 0 <= k < |sub| && sub[k] == t;
    assert txs[f[k]] in txs;
  }

  /** Joining lists that share no group. */
  lemma ContiguousConcat(a: seq<PoolL2Tx>, b: seq<PoolL2Tx>)
    requires Contiguous(a) && Contiguous(b)
    requires forall s, t :: s in a && t in b && s.atomicGroupID != NO_GROUP ==> s.atomicGroupID != t.atomicGroupID
    ensures Contiguous(a + b)
  {
    var ab := a + b;
    forall i, k | 0 <= i < |a| <= k < |ab| && ab[i].atomicGroupID != NO_GROUP
      ensures ab[i].atomicGroupID != ab[k].atomicGroupID
    {
      assert ab[i] in a && b[k - |a|] in b;
    }
    forall i, j, k | 0 <= i < j < k < |ab| && ab[i].atomicGroupID == ab[k].atomicGroupID != NO_GROUP
      ensures ab[j].atomicGroupID == ab[i].atomicGroupID
    {
      if i >= |a| {
        assert ab[i] == b[i - |a|] && ab[j] == b[j - |a|] && ab[k] == b[k - |a|];
      }
    }
  }

  /** A tx outside of all groups does not lie inside one. */
  lemma CutBetweenGroups(txs: seq<PoolL2Tx>, m: nat, g: AtomicGroupID)
    requires m <= |txs| && Contiguous(txs) && g != NO_GROUP && (m < |txs| ==> txs[m].atomicGroupID == NO_GROUP)
    ensures Group(txs[..m], g) == [] || Group(txs[m..], g) == []
  {
    GroupEmptyIff(txs[..m], g);
    GroupEmptyIff(txs[m..], g);
    if Group(txs[..m], g) != [] {
      var s :| s in txs[..m] && s.atomicGroupID == g;
      var a :| 0 <= a < m && txs[a] == s;
      forall t | t in txs[m..] ensures t.atomicGroupID != g {
        var c :| m <= c < |txs| && txs[c] == t;
        assert c == m || a < m < c;
      }
    }
  }

  /** The txs of the group are those from the q-th on. */
  ghost predicate Segment(txs: seq<PoolL2Tx>, g: AtomicGroupID, q: nat) {
    && q + |Group(txs, g)| <= |txs|
    && (forall j :: q <= j < q + |Group(txs, g)| ==> txs[j].atomicGroupID == g && Bare(txs[j]) == Group(txs, g)[j - q])
    && (forall j :: 0 <= j < |txs| && txs[j].atomicGroupID == g ==> q <= j < q + |Group(txs, g)|)
  }

  lemma SegmentNext(txs: seq<PoolL2Tx>, t: PoolL2Tx, g: AtomicGroupID, q: nat)
    requires Segment(txs, g, q) && Contiguous(txs + [t]) && g != NO_GROUP
    ensures Segment(txs + [t], g, if t.atomicGroupID == g && Group(txs, g) == [] then |txs| else q)
  {
    hide Bare, Group;
    GroupSnoc(txs, t, g);
    var more := txs + [t];
    if t.atomicGroupID == g && Group(txs, g) != [] {
      var last := |txs| - 1;
      assert more[q].atomicGroupID == g && more[|txs|].atomicGroupID == g;
      assert q == last || more[last].atomicGroupID == g;
      assert txs[last].atomicGroupID == g;
    }
  }

  /** The txs of a group in a contiguous list are a segment of it. */
  lemma {:induction false} GroupIsSegment(txs: seq<PoolL2Tx>, g: AtomicGroupID) returns (q: nat)
    requires Contiguous(txs) && g != NO_GROUP
    ensures Segment(txs, g, q)
  {
    hide Bare;
    if txs == [] {
      q := 0;
    } else {
      var n := |txs| - 1;
      assert Contiguous(txs[..n]);
      q := GroupIsSegment(txs[..n], g);
      assert txs == txs[..n] + [txs[n]];
      SegmentNext(txs[..n], txs[n], g, q);
      q := if txs[n].atomicGroupID == g && Group(txs[..n], g) == [] then n else q;
    }
  }
}
