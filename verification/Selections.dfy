/** What a finished selection promises, as facts about values; the TxSelector class establishes them. */
module Selections {
  import opened Wrappers
  import opened Common
  import opened Ledger
  import opened Effects
  import opened Batch
  import opened Funds
  import opened Conservation
  import opened Selection
  import opened Selected
  import opened Choices
  import opened Decisions
  import opened Groups
  import opened Iteration
  import opened Passes
  import opened AtomicGroups
  import opened Agreement
  import TxBytes

  // ---- Lists with the same txs ----

  lemma {:induction false} IdsRemove(txs: seq<PoolL2Tx>, k: nat)
    requires k < |txs|
    ensures Ids(txs) == Ids(txs[..k] + txs[k + 1..]) + multiset{txs[k].txID}
  {
    hide Ids;
    assert txs == (txs[..k] + [txs[k]]) + txs[k + 1..];
    IdsConcat(txs[..k] + [txs[k]], txs[k + 1..]);
    IdsSnoc(txs[..k], txs[k]);
    IdsConcat(txs[..k], txs[k + 1..]);
  }

  lemma {:induction false} IdsOfSame(a: seq<PoolL2Tx>, b: seq<PoolL2Tx>)
    requires multiset(a) == multiset(b)
    ensures Ids(a) == Ids(b)
  {
    if a == [] {
      assert |multiset(b)| == 0;
      assert a == b;
    } else {
      var n := |a| - 1;
      assert a == a[..n] + [a[n]];
      assert a[n] in multiset(b);
      var k :| 0 <= k < |b| && b[k] == a[n];
      assert b == b[..k] + [b[k]] + b[k + 1..];
      assert multiset(b[..k] + b[k + 1..]) == multiset(b) - multiset{b[k]};
      assert multiset(a[..n]) == multiset(a) - multiset{a[n]};
      IdsOfSame(a[..n], b[..k] + b[k + 1..]);
      IdsRemove(b, k);
    }
  }

  lemma IdsOfParts(all: seq<PoolL2Tx>, a: seq<PoolL2Tx>, b: seq<PoolL2Tx>)
    requires multiset(all) == multiset(a) + multiset(b)
    ensures Ids(all) == Ids(a) + Ids(b)
  {
    hide Ids;
    assert multiset(a + b) == multiset(a) + multiset(b);
    IdsOfSame(all, a + b);
    IdsConcat(a, b);
  }

  lemma GroupOfSameMembers(a: seq<PoolL2Tx>, b: seq<PoolL2Tx>, g: AtomicGroupID)
    requires Members(a, g) == Members(b, g)
    ensures Group(a, g) == Group(b, g)
  {
    hide Members, Group, Bare;
    GroupIsMembers(a, g);
    GroupIsMembers(b, g);
  }

  lemma NoMembersNoGroup(a: seq<PoolL2Tx>, g: AtomicGroupID)
    requires Members(a, g) == []
    ensures Group(a, g) == []
  {
    GroupIsMembers(a, g);
  }

  // ---- Along the passes ----

  /** The groups of the pool that may be tried: valid, and not failed so far. */
  predicate Tried(pool: seq<PoolL2Tx>, failed: seq<AtomicGroupID>, g: AtomicGroupID) {
    g !in failed && ValidGroup(Members(pool, g))
  }

  /** The candidates are a part of the pool: whole groups, but only those that may be tried. */
  ghost predicate FromPool(pool: seq<PoolL2Tx>, failed: seq<AtomicGroupID>, txs: seq<PoolL2Tx>,
                           discarded: seq<PoolL2Tx>) {
    && multiset(pool) == multiset(txs) + multiset(discarded)
    && forall g :: g != NO_GROUP ==> Members(txs, g) == if Tried(pool, failed, g) then Members(pool, g) else []
  }

  /** The pool and the ledger meet what the agreement needs. */
  ghost predicate Fair(env: Env, st1: State, pool: seq<PoolL2Tx>) {
    Workable(env, st1) && Candidates(pool)
  }

  /** What holds between two passes. */
  ghost predicate Between(env: Env, st1: State, fair: bool, all: seq<PoolL2Tx>, w: Work, rest: seq<PoolL2Tx>,
                          gone: multiset<TxID>) {
    && w.stop == Going && w.later == [] && w.never == []
    && Undivided(all, w.selected, rest) && Bounded(env, w)
    && Ids(w.selected) + Ids(rest) + gone == Ids(all)
    && (fair ==> Workable(env, st1) && Sound(env, st1, w) && Candidates(rest))
  }

  function Start1(p: Proc): Work {
    Work(p.(fees := map[]), [], [], [], [], [], Going)
  }

  lemma BetweenStarts(env: Env, st1: State, fair: bool, all: seq<PoolL2Tx>, p: Proc)
    requires Contiguous(all) && Valid(p.st) && p.exits == map[] && p.collected == map[] && p.st == st1
    requires fair ==> Workable(env, st1) && Candidates(all)
    ensures Between(env, st1, fair, all, Start1(p), all, multiset{})
  {
    hide Valid, Contiguous, Workable;
    UndividedAtFirst(all);
    IdsEmpty();
    hide Ids;
  }

  lemma PassBetween(env: Env, st1: State, fair: bool, all: seq<PoolL2Tx>, w: Work, rest: seq<PoolL2Tx>,
                    gone: multiset<TxID>)
    requires Between(env, st1, fair, all, w, rest, gone) && GoesOn(SelectAll(env, w, rest))
    ensures var v := SelectAll(env, w, rest);
            && Between(env, st1, fair, all, v.(later := [], never := [], stop := Going), v.later, gone + Ids(v.never))
            && (v.selected != w.selected ==> |v.later| < |rest|)
            && w.selected <= v.selected
  {
    hide Ids, Undivided, Sound, Bounded, SelectAll, CutAt, Workable, Candidates;
    var v := SelectAll(env, w, rest);
    var m, picked := PassSplits(env, w, rest);
    PassKeepsUndivided(w, v, rest, m, picked, all);
    PassKeepsIds(w, v, rest, m, picked, gone);
    PassShrinks(w, v, rest, m, picked);
    SplitPicks(w, v, rest, m, picked);
    PassIsBounded(env, w, rest);
    var next := v.(later := [], never := [], stop := Going);
    SameBounds(env, v, next);
    if fair {
      PassIsSound(env, st1, w, rest);
      SoundOfLists(env, st1, v, next);
    }
  }

  lemma SplitPicks(w: Work, v: Work, txs: seq<PoolL2Tx>, m: nat, picked: seq<PoolL2Tx>)
    requires CutAt(w, v, txs, m, picked)
    ensures v.selected == w.selected + picked
  {
  }

  // ---- The result ----

  datatype Choice = Choice(
    coordIdxs: seq<Idx>,
    accAuths: seq<Signature>,
    l1UserTxs: seq<L1Tx>,
    l1CoordinatorTxs: seq<L1Tx>,
    l2Txs: seq<PoolL2Tx>,
    discardedL2Txs: seq<PoolL2Tx>
  )

  /** Every pool tx was either selected or discarded, exactly once. */
  ghost predicate Partitioned(pool: seq<PoolL2Tx>, choice: Choice) {
    Ids(choice.l2Txs) + Ids(choice.discardedL2Txs) == Ids(pool)
  }

  /** Groups are selected whole and in one piece, and only valid ones. */
  ghost predicate WholeGroups(pool: seq<PoolL2Tx>, txs: seq<PoolL2Tx>) {
    && Contiguous(txs)
    && forall g :: g != NO_GROUP ==>
         Group(txs, g) == [] || (Group(txs, g) == Group(pool, g) && ValidGroup(Members(pool, g)))
  }

  /** A selection `w` from the ledger `st`, the choice that it makes, and the ledger that it leaves. */
  ghost predicate Finished(env: Env, st: State, l1User: seq<L1Tx>, pool: seq<PoolL2Tx>, w: Work, choice: Choice,
                           left: State) {
    && AfterUser(env.cfg, st, l1User).err == None
    && choice.l1UserTxs == l1User && choice.l1CoordinatorTxs == w.l1 && choice.accAuths == w.auths
    && choice.l2Txs == w.selected
    && Partitioned(pool, choice) && WholeGroups(pool, choice.l2Txs)
    && Bounded(env, w) && CoordsOf(env.coord, w, choice.coordIdxs)
    && (Fair(env, AfterUser(env.cfg, st, l1User).p.st, pool) ==> Sound(env, AfterUser(env.cfg, st, l1User).p.st, w))
    && left == PayFees(w.p.st, w.p.fees)
    && (forall i :: i in w.p.st.accounts ==> Fits(left.accounts[i]))
  }

  lemma PassesEnd(env: Env, st1: State, fair: bool, pool: seq<PoolL2Tx>, failed: seq<AtomicGroupID>, all: seq<PoolL2Tx>,
                  w: Work, rest: seq<PoolL2Tx>, gone: multiset<TxID>, dropped: seq<PoolL2Tx>)
    requires Between(env, st1, fair, all, w, rest, gone) && FromPool(pool, failed, all, dropped)
    ensures WholeGroups(pool, w.selected) && Bounded(env, w)
    ensures Ids(w.selected) + (Ids(dropped) + gone + Ids(rest)) == Ids(pool)
    ensures fair ==> Sound(env, st1, w)
  {
    hide Ids, Sound, Bounded, Group, Members, ValidGroup, Contiguous, Workable;
    IdsOfParts(pool, all, dropped);
    forall g | g != NO_GROUP
      ensures Group(w.selected, g) == [] || (Group(w.selected, g) == Group(pool, g) && ValidGroup(Members(pool, g)))
    {
      if Tried(pool, failed, g) {
        GroupOfSameMembers(all, pool, g);
      } else {
        NoMembersNoGroup(all, g);
      }
    }
  }

  // ---- What a finished selection is worth ----

  /** The batch builder executes the selection and ends in the ledger that the selector left. */
  lemma SelectionIsBuildable(env: Env, st: State, l1User: seq<L1Tx>, pool: seq<PoolL2Tx>, w: Work, choice: Choice,
                             left: State)
    requires Finished(env, st, l1User, pool, w, choice, left)
    requires Buildable(env.cfg, st, l1User) && env.nUser == |l1User| && |choice.coordIdxs| <= env.cfg.maxFeeTx
    requires Fair(env, AfterUser(env.cfg, st, l1User).p.st, pool)
    ensures var s := ProcessTxs(BatchBuilder, env.cfg, st, choice.coordIdxs, choice.l1UserTxs,
                               choice.l1CoordinatorTxs, choice.l2Txs);
            s.err == None && s.p.st == left
  {
    hide ProcessTxs, Sound, Bounded, CoordsOf, Fair, Partitioned, WholeGroups, Buildable, AfterUser, Fits;
    BuilderAgrees(env, st, l1User, w, choice.coordIdxs);
  }

  /** The supply bound before the L1 user txs implies the one after them. */
  lemma SupplyStaysBounded(cfg: Config, st: State, l1User: seq<L1Tx>)
    requires Buildable(cfg, st, l1User) && AfterUser(cfg, st, l1User).err == None
    ensures Total(AfterUser(cfg, st, l1User).p.st.accounts, None) < BALANCE_LIMIT
  {
    hide RunL1, Valid, ValidProc, RepresentableL1;
    L1RunAgrees(cfg, st, l1User);
    var p := RunL1(BatchBuilder, cfg, Start(st), l1User).p;
    assert ValidProc(p);
    ExitsNotNegative(p);
  }

  lemma ExitsNotNegative(p: Proc)
    requires ValidProc(p)
    ensures 0 <= Total(p.exits, None)
  {
    Executed.TotalNotNegative(p.exits, None);
  }

  /** The selected txs of each sender carry consecutive nonces from the one after the L1 user txs on. */
  lemma NoncesAreConsecutive(env: Env, st: State, l1User: seq<L1Tx>, pool: seq<PoolL2Tx>, w: Work, choice: Choice,
                             left: State)
    requires Finished(env, st, l1User, pool, w, choice, left)
    requires Fair(env, AfterUser(env.cfg, st, l1User).p.st, pool)
    ensures var st1 := AfterUser(env.cfg, st, l1User).p.st;
            forall k :: 0 <= k < |choice.l2Txs| ==>
              var from := choice.l2Txs[k].fromIdx;
              choice.l2Txs[k].nonce == NonceOf(st1, from) + CountFrom(choice.l2Txs[..k], from)
  {
    hide AfterUser, Valid, Replayed, Funded, FeesKept, Settled, Partitioned, WholeGroups, Bounded, CoordsOf;
    hide Fair, NonceOf, CountFrom;
  }

  /** The batch has room for everything, and coordinator txs follow the L1 user txs with one authorization each. */
  lemma WithinBounds(env: Env, st: State, l1User: seq<L1Tx>, pool: seq<PoolL2Tx>, w: Work, choice: Choice, left: State)
    requires Finished(env, st, l1User, pool, w, choice, left) && env.nUser == |l1User|
    requires |l1User| <= env.cfg.maxL1Tx && |l1User| <= env.cfg.maxTx
    ensures |l1User| + |choice.l1CoordinatorTxs| <= env.cfg.maxL1Tx
    ensures |l1User| + |choice.l1CoordinatorTxs| + |choice.l2Txs| <= env.cfg.maxTx
    ensures |choice.accAuths| == |choice.l1CoordinatorTxs|
    ensures forall k :: 0 <= k < |choice.l1CoordinatorTxs| ==>
              choice.l1CoordinatorTxs[k].position == |l1User| + k
              && Authorized(env, choice.l1CoordinatorTxs[k], choice.accAuths[k])
  {
    hide Sound, AfterUser, CoordsOf, Partitioned, WholeGroups, Fair, Authorized;
  }

  // ---- Atomic groups stay linked ----

  /** The tokens of the pool txs are those of their senders. */
  ghost predicate OwnTokens(st: State, pool: seq<PoolL2Tx>) {
    forall tx :: tx in pool && tx.fromIdx in st.accounts ==> tx.tokenID == TokenOf(st, tx.fromIdx)
  }

  /**
   An atomic tx that is selected finds, as many places further as its offset says, a tx that is
   what it asks for in every field of the compressed data.
   */
  lemma GroupsStayLinked(env: Env, st: State, l1User: seq<L1Tx>, pool: seq<PoolL2Tx>, w: Work, choice: Choice,
                         left: State, p: nat)
    requires Finished(env, st, l1User, pool, w, choice, left)
    requires Fair(env, AfterUser(env.cfg, st, l1User).p.st, pool)
    requires OwnTokens(w.p.st, pool)
    requires p < |choice.l2Txs| && choice.l2Txs[p].atomicGroupID != NO_GROUP
    ensures Linked(choice.l2Txs, p)
    ensures var r := RequestOffset2RelativePosition(choice.l2Txs[p].rqOffset).value;
            choice.l2Txs[p + r].atomicGroupID == choice.l2Txs[p].atomicGroupID
  {
    hide Sound, AfterUser, CoordsOf, Partitioned, Fair, Bounded, Contiguous, Group, Members, Bare, Linked;
    var txs := choice.l2Txs;
    var g := txs[p].atomicGroupID;
    var members := Members(pool, g);
    assert txs[p] in txs;
    GroupEmptyIff(txs, g);
    var q := GroupIsSegment(txs, g);
    GroupIsMembers(pool, g);
    var i := p - q;
    assert Bare(txs[p]) == Bare(members[i]);
    assert Linked(members, i);
    LinkedParts(members, i);
    SameRequest(txs[p], members[i]);
    var r := RequestOffset2RelativePosition(txs[p].rqOffset).value;
    var j := i + r;
    assert txs[p + r].atomicGroupID == g && Bare(txs[p + r]) == Bare(members[j]) by {
      assert txs[q + j].atomicGroupID == g && Bare(txs[q + j]) == Group(txs, g)[q + j - q];
    }
    assert txs[p + r].tokenID == members[j].tokenID by {
      OwnToken(env, AfterUser(env.cfg, st, l1User).p.st, w, pool, p + r, members[j], g);
    }
    SameRequested(txs[p + r], members[j]);
    LinkedWhere(txs, p);
  }

  /** The compressed data that an atomic tx asks for is the compressed data found there. */
  lemma LinkedData(env: Env, st: State, l1User: seq<L1Tx>, pool: seq<PoolL2Tx>, w: Work, choice: Choice, left: State,
                   p: nat)
    requires Finished(env, st, l1User, pool, w, choice, left)
    requires Fair(env, AfterUser(env.cfg, st, l1User).p.st, pool) && OwnTokens(w.p.st, pool)
    requires p < |choice.l2Txs| && choice.l2Txs[p].atomicGroupID != NO_GROUP
    ensures var r := RequestOffset2RelativePosition(choice.l2Txs[p].rqOffset);
            && r.Ok? && 0 <= p + r.value < |choice.l2Txs|
            && TxBytes.RqTxCompressedDataV2(choice.l2Txs[p]) == TxBytes.TxCompressedDataV2(choice.l2Txs[p + r.value])
  {
    hide Finished, AfterUser, Fair, OwnTokens, Requests, TxBytes.RqTxCompressedDataV2, TxBytes.TxCompressedDataV2;
    GroupsStayLinked(env, st, l1User, pool, w, choice, left, p) by {
      assert choice.l2Txs == w.selected by {
        FinishedTxs(env, st, l1User, pool, w, choice, left);
      }
    }
    var r := RequestOffset2RelativePosition(choice.l2Txs[p].rqOffset).value;
    TxBytes.RequestedData(choice.l2Txs[p], choice.l2Txs[p + r]);
  }

  lemma FinishedTxs(env: Env, st: State, l1User: seq<L1Tx>, pool: seq<PoolL2Tx>, w: Work, choice: Choice, left: State)
    requires Finished(env, st, l1User, pool, w, choice, left)
    ensures choice.l2Txs == w.selected
  {
    hide AfterUser, Sound, Bounded, CoordsOf, Partitioned, WholeGroups, Fair;
  }

  lemma LinkedParts(txs: seq<PoolL2Tx>, i: nat)
    requires i < |txs| && Linked(txs, i)
    ensures var r := RequestOffset2RelativePosition(txs[i].rqOffset);
            r.Ok? && 0 <= i + r.value < |txs| && Requests(txs[i], txs[i + r.value])
  {
  }

  lemma LinkedWhere(txs: seq<PoolL2Tx>, i: nat)
    requires i < |txs|
    requires var r := RequestOffset2RelativePosition(txs[i].rqOffset);
             r.Ok? && 0 <= i + r.value < |txs| && Requests(txs[i], txs[i + r.value])
    ensures Linked(txs, i)
  {
  }

  lemma SameRequest(s: PoolL2Tx, t: PoolL2Tx)
    requires Bare(s) == Bare(t)
    ensures s.rqOffset == t.rqOffset && forall rq :: Requests(s, rq) == Requests(t, rq)
  {
    var a, b := Bare(s), Bare(t);
    assert a.rqOffset == s.rqOffset && b.rqOffset == t.rqOffset && a.rqFromIdx == s.rqFromIdx && b.rqFromIdx == t.rqFromIdx;
    assert a.rqToIdx == s.rqToIdx && b.rqToIdx == t.rqToIdx
           && a.rqToEthAddr == s.rqToEthAddr && b.rqToEthAddr == t.rqToEthAddr;
    assert a.rqToBJJ == s.rqToBJJ && b.rqToBJJ == t.rqToBJJ && a.rqTokenID == s.rqTokenID && b.rqTokenID == t.rqTokenID;
    assert a.rqFee == s.rqFee && b.rqFee == t.rqFee && a.rqNonce == s.rqNonce && b.rqNonce == t.rqNonce;
    assert a.rqAmount == s.rqAmount && b.rqAmount == t.rqAmount;
  }

  lemma SameRequested(s: PoolL2Tx, t: PoolL2Tx)
    requires Bare(s) == Bare(t) && s.tokenID == t.tokenID
    ensures forall tx :: Requests(tx, s) == Requests(tx, t)
  {
    var a, b := Bare(s), Bare(t);
    assert a.fromIdx == s.fromIdx && b.fromIdx == t.fromIdx && a.toIdx == s.toIdx && b.toIdx == t.toIdx;
    assert a.toEthAddr == s.toEthAddr && b.toEthAddr == t.toEthAddr && a.toBJJ == s.toBJJ && b.toBJJ == t.toBJJ;
    assert a.fee == s.fee && b.fee == t.fee && a.nonce == s.nonce && b.nonce == t.nonce
           && a.amount == s.amount && b.amount == t.amount;
  }

  lemma OwnToken(env: Env, st1: State, w: Work, pool: seq<PoolL2Tx>, k: nat, t: PoolL2Tx, g: AtomicGroupID)
    requires Sound(env, st1, w) && OwnTokens(w.p.st, pool) && k < |w.selected|
    requires t in Members(pool, g) && Bare(w.selected[k]) == Bare(t)
    ensures w.selected[k].tokenID == t.tokenID
  {
    hide Valid, Replayed, Funded, Consecutive, Settled, TokenOf, Bare;
    MembersOf(pool, g);
    SameGroup(w.selected[k], t);
    assert w.selected[k] in w.selected;
  }
}
