/** The check that txs sent together are one atomic group (api/atomicpool.go). */
module AtomicPool {
  import opened Wrappers
  import opened Common
  import AtomicGroups

  /** A graph in which every node has one successor: the tx it requests. */
  ghost predicate Graph(next: seq<nat>) {
    forall i :: 0 <= i < |next| ==> next[i] < |next|
  }

  /** Where `k` requests lead from node `i`. */
  ghost function Walk(next: seq<nat>, i: nat, k: nat): (j: nat)
    requires Graph(next) && i < |next|
    ensures j < |next|
  {
    if k == 0 then i else next[Walk(next, i, k - 1)]
  }

  ghost predicate Reaches(next: seq<nat>, i: nat, j: nat)
    requires Graph(next) && i < |next|
  {
    exists k: nat :: Walk(next, i, k) == j
  }

  lemma {:induction false} WalkOn(next: seq<nat>, i: nat, a: nat, b: nat)
    requires Graph(next) && i < |next|
    ensures Walk(next, i, a + b) == Walk(next, Walk(next, i, a), b)
  {
    if b > 0 {
      WalkOn(next, i, a, b - 1);
    }
  }

  ghost predicate Closed(next: seq<nat>, s: set<nat>)
    requires Graph(next)
  {
    forall i :: i in s && i < |next| ==> next[i] in s
  }

  lemma {:induction false} ClosedHoldsWalks(next: seq<nat>, s: set<nat>, i: nat, k: nat)
    requires Graph(next) && Closed(next, s) && i < |next| && i in s
    ensures Walk(next, i, k) in s
  {
    if k > 0 {
      ClosedHoldsWalks(next, s, i, k - 1);
    }
  }

  // ---- The strongly connected components, as the graph package computes them ----

  /** The first `n` numbers. */
  ghost function All(n: nat): (s: set<nat>)
    ensures forall j: nat :: j in s <==> j < n
    ensures |s| == n
  {
    if n == 0 then {} else All(n - 1) + {n - 1}
  }

  /** The nodes that node `i` reaches and that reach it. */
  ghost predicate Component(next: seq<nat>, c: set<nat>, i: nat)
    requires Graph(next) && i < |next|
  {
    c <= All(|next|) && forall j: nat :: j in All(|next|) ==> (j in c <==> Reaches(next, i, j) && Reaches(next, j, i))
  }

  ghost predicate HasComponent(next: seq<nat>, components: set<set<nat>>, i: nat)
    requires Graph(next) && i < |next|
  {
    exists c :: c in components && Component(next, c, i)
  }

  ghost predicate IsComponent(next: seq<nat>, c: set<nat>)
    requires Graph(next)
  {
    exists i: nat :: i < |next| && Component(next, c, i)
  }

  method ReachableFrom(next: seq<nat>, i: nat) returns (s: set<nat>)
    requires Graph(next) && i < |next|
    ensures s <= All(|next|) && forall j: nat :: j in All(|next|) ==> (j in s <==> Reaches(next, i, j))
  {
    hide All, Walk, Reaches;
    s := {};
    var cur := i;
    StartsAt(next, i);
    ghost var n: nat := 0;
    while cur !in s
      invariant cur == Walk(next, i, n) && s <= All(|next|)
      invariant forall j: nat :: j in s ==> Reaches(next, i, j)
      invariant forall j: nat :: j in s ==> next[j] in s || next[j] == cur
      invariant i in s || cur == i
      decreases |All(|next|) - s|
    {
      Visit(next, i, n, s);
      s := s + {cur};
      cur := next[cur];
      n := n + 1;
    }
    ReachedIn(next, i, s);
  }

  lemma StartsAt(next: seq<nat>, i: nat)
    requires Graph(next) && i < |next|
    ensures Walk(next, i, 0) == i
  {
  }

  lemma Visit(next: seq<nat>, i: nat, n: nat, s: set<nat>)
    requires Graph(next) && i < |next| && Walk(next, i, n) !in s && s <= All(|next|)
    ensures var cur := Walk(next, i, n);
            cur in All(|next|) && Reaches(next, i, cur) && |All(|next|) - (s + {cur})| < |All(|next|) - s|
    ensures Walk(next, i, n + 1) == next[Walk(next, i, n)]
  {
    var cur := Walk(next, i, n);
    assert All(|next|) - (s + {cur}) == All(|next|) - s - {cur};
  }

  lemma ReachedIn(next: seq<nat>, i: nat, s: set<nat>)
    requires Graph(next) && i < |next| && i in s && Closed(next, s)
    ensures forall j: nat :: Reaches(next, i, j) ==> j in s
  {
    forall j: nat | Reaches(next, i, j) ensures j in s {
      var k: nat :| Walk(next, i, k) == j;
      ClosedHoldsWalks(next, s, i, k);
    }
  }

  /** The sets of nodes that reach each other. */
  method StrongComponents(next: seq<nat>) returns (components: set<set<nat>>)
    requires Graph(next)
    ensures forall i: nat :: i in All(|next|) ==> HasComponent(next, components, i)
    ensures forall c :: c in components ==> IsComponent(next, c)
  {
    var reach: seq<set<nat>> := [];
    for i := 0 to |next|
      invariant |reach| == i
      invariant forall h: nat :: h < i ==>
        reach[h] <= All(|next|) && forall j: nat :: j in All(|next|) ==> (j in reach[h] <==> Reaches(next, h, j))
    {
      var s := ReachableFrom(next, i);
      reach := reach + [s];
    }
    components := {};
    for i := 0 to |next|
      invariant forall h: nat :: h in All(i) ==> HasComponent(next, components, h)
      invariant forall c :: c in components ==> IsComponent(next, c)
    {
      var c := set j: nat | j in reach[i] && j < |reach| && i in reach[j];
      assert Component(next, c, i);
      assert IsComponent(next, c);
      forall h: nat | h in All(i + 1) ensures HasComponent(next, components + {c}, h) {
        if h == i {
          assert c in components + {c} && Component(next, c, i);
        } else {
          assert h in All(i);
          var d :| d in components && Component(next, d, h);
          assert d in components + {c};
        }
      }
      components := components + {c};
    }
  }

  ghost predicate AllReachAll(next: seq<nat>)
    requires Graph(next)
  {
    next != [] && forall i: nat, j: nat :: i < |next| && j < |next| ==> Reaches(next, i, j)
  }

  lemma ReachesItself(next: seq<nat>, i: nat)
    requires Graph(next) && i < |next|
    ensures Reaches(next, i, i)
  {
    assert Walk(next, i, 0) == i;
  }

  /** There is one component exactly when every node reaches every node. */
  lemma OneComponentIff(next: seq<nat>, components: set<set<nat>>)
    requires Graph(next)
    requires forall i: nat :: i in All(|next|) ==> HasComponent(next, components, i)
    requires forall c :: c in components ==> IsComponent(next, c)
    ensures |components| == 1 <==> AllReachAll(next)
  {
    hide All, Walk, Reaches;
    if |components| == 1 {
      var only :| only in components;
      assert IsComponent(next, only);
      forall i: nat | i in All(|next|) ensures Component(next, only, i) {
        assert HasComponent(next, components, i);
        var c :| c in components && Component(next, c, i);
        Singleton(components, c, only);
      }
      forall i: nat, j: nat | i < |next| && j < |next| ensures Reaches(next, i, j) {
        ReachesItself(next, j);
        assert Component(next, only, i) && Component(next, only, j);
        assert j in only;
      }
    }
    if AllReachAll(next) {
      forall c | c in components ensures c == All(|next|) {
        assert IsComponent(next, c);
      }
      assert HasComponent(next, components, 0);
      assert components == {All(|next|)};
    }
  }

  lemma Singleton<T>(s: set<T>, a: T, b: T)
    requires |s| == 1 && a in s && b in s
    ensures a == b
  {
    var t := s - {b};
    assert s == t + {b};
    assert |t| == 0;
    assert a in t || a == b;
  }

  // ---- What it means ----

  /** No proper part of the txs is closed under requests. */
  ghost predicate Indivisible(next: seq<nat>)
    requires Graph(next)
  {
    next != [] && forall s: set<nat>, i: nat :: Closed(next, s) && i in s && i < |next| ==> All(|next|) <= s
  }

  /** What a node reaches. */
  ghost function From(next: seq<nat>, i: nat): (s: set<nat>)
    requires Graph(next) && i < |next|
    ensures s <= All(|next|) && forall j: nat :: j in All(|next|) ==> (j in s <==> Reaches(next, i, j))
  {
    set j: nat | j in All(|next|) && Reaches(next, i, j)
  }

  lemma FromIsClosed(next: seq<nat>, i: nat)
    requires Graph(next) && i < |next|
    ensures Closed(next, From(next, i)) && i in From(next, i)
  {
    ReachesItself(next, i);
    forall h | h in From(next, i) && h < |next| ensures next[h] in From(next, i) {
      var k: nat :| Walk(next, i, k) == h;
      assert Walk(next, i, k + 1) == next[h];
      assert next[h] in All(|next|);
    }
  }

  lemma IndivisibleIff(next: seq<nat>)
    requires Graph(next)
    ensures AllReachAll(next) <==> Indivisible(next)
  {
    if AllReachAll(next) {
      forall s: set<nat>, i: nat | Closed(next, s) && i in s && i < |next| ensures All(|next|) <= s {
        ReachedIn(next, i, s);
      }
    }
    if Indivisible(next) {
      forall i: nat, j: nat | i < |next| && j < |next| ensures Reaches(next, i, j) {
        FromIsClosed(next, i);
        assert j in All(|next|);
      }
    }
  }

  /** The requests lead from the first tx through all others and back to it. */
  ghost predicate OneCycle(next: seq<nat>)
    requires Graph(next)
  {
    next != [] && Walk(next, 0, |next|) == 0 && Distinct(next, |next|)
  }

  /** The first `p` nodes on the way from the first tx are different. */
  ghost predicate Distinct(next: seq<nat>, p: nat)
    requires Graph(next) && next != []
  {
    forall a: nat, b: nat :: a < b < p ==> Walk(next, 0, a) != Walk(next, 0, b)
  }

  ghost function Visited(next: seq<nat>, p: nat): set<nat>
    requires Graph(next) && next != []
  {
    if p == 0 then {} else Visited(next, p - 1) + {Walk(next, 0, p - 1)}
  }

  lemma {:induction false} IsVisited(next: seq<nat>, p: nat, a: nat)
    requires Graph(next) && next != [] && a < p
    ensures Walk(next, 0, a) in Visited(next, p)
  {
    hide Walk;
    if a < p - 1 {
      IsVisited(next, p - 1, a);
    }
  }

  lemma {:induction false} VisitedAt(next: seq<nat>, p: nat, j: nat) returns (a: nat)
    requires Graph(next) && next != [] && j in Visited(next, p)
    ensures a < p && Walk(next, 0, a) == j
  {
    hide Walk;
    if j == Walk(next, 0, p - 1) {
      a := p - 1;
    } else {
      a := VisitedAt(next, p - 1, j);
    }
  }

  lemma {:induction false} VisitedSize(next: seq<nat>, p: nat)
    requires Graph(next) && next != [] && Distinct(next, p)
    ensures |Visited(next, p)| == p && Visited(next, p) <= All(|next|)
  {
    hide All, Walk;
    if p > 0 {
      VisitedSize(next, p - 1);
      if Walk(next, 0, p - 1) in Visited(next, p - 1) {
        var a := VisitedAt(next, p - 1, Walk(next, 0, p - 1));
      }
    }
  }

  lemma SubsetOfSameSize(s: set<nat>, t: set<nat>)
    requires s <= t && |s| == |t|
    ensures s == t
  {
    assert t == s + (t - s);
    assert |t - s| == 0;
  }

  /** The shortest way from a node on a cycle back to it. */
  lemma ShortestReturn(next: seq<nat>, k: nat) returns (p: nat)
    requires Graph(next) && next != [] && k > 0 && Walk(next, 0, k) == 0
    ensures 0 < p <= k && Walk(next, 0, p) == 0
    ensures forall q: nat :: 0 < q < p ==> Walk(next, 0, q) != 0
  {
    p := 1;
    while Walk(next, 0, p) != 0
      invariant 0 < p <= k
      invariant forall q: nat :: 0 < q < p ==> Walk(next, 0, q) != 0
      decreases k - p
    {
      p := p + 1;
    }
  }

  lemma {:induction false} WalkModulo(next: seq<nat>, p: nat, k: nat)
    requires Graph(next) && next != [] && p > 0 && Walk(next, 0, p) == 0
    ensures Walk(next, 0, k) in Visited(next, p)
    decreases k
  {
    hide Walk, Visited;
    if k >= p {
      WalkOn(next, 0, p, k - p);
      WalkModulo(next, p, k - p);
    } else {
      IsVisited(next, p, k);
    }
  }

  lemma CycleFromReach(next: seq<nat>)
    requires Graph(next) && AllReachAll(next)
    ensures OneCycle(next)
  {
    assert Walk(next, 0, 1) == next[Walk(next, 0, 0)] == next[0];
    hide Walk, Visited, All;
    assert Reaches(next, next[0], 0);
    var k: nat :| Walk(next, next[0], k) == 0;
    WalkOn(next, 0, 1, k);
    var p := ShortestReturn(next, 1 + k);
    forall a: nat, b: nat | a < b < p ensures Walk(next, 0, a) != Walk(next, 0, b) {
      WalkOn(next, 0, a, p - b);
      WalkOn(next, 0, b, p - b);
      assert Walk(next, 0, a + (p - b)) != 0;
    }
    forall j: nat | j in All(|next|) ensures j in Visited(next, p) {
      assert Reaches(next, 0, j);
      var i: nat :| Walk(next, 0, i) == j;
      WalkModulo(next, p, i);
    }
    VisitedSize(next, p);
    assert Visited(next, p) == All(|next|);
  }

  lemma ReachFromCycle(next: seq<nat>)
    requires Graph(next) && OneCycle(next)
    ensures AllReachAll(next)
  {
    hide All, Walk, Visited;
    var n := |next|;
    VisitedSize(next, n);
    SubsetOfSameSize(Visited(next, n), All(n));
    forall i: nat, j: nat | i < n && j < n ensures Reaches(next, i, j) {
      assert i in All(n) && j in All(n);
      var a := VisitedAt(next, n, i);
      var b := VisitedAt(next, n, j);
      WalkOn(next, 0, a, n - a);
      WalkOn(next, i, n - a, b);
      assert Walk(next, i, n - a + b) == j;
    }
  }

  // ---- The check ----

  /** Every tx requests one of the others. */
  predicate Requesting(txs: seq<PoolL2Tx>) {
    forall i :: 0 <= i < |txs| ==>
      var r := AtomicGroups.RequestOffset2RelativePosition(txs[i].rqOffset); r.Ok? && 0 <= i + r.value < |txs|
  }

  function Requested(txs: seq<PoolL2Tx>): (next: seq<nat>)
    requires Requesting(txs)
    ensures Graph(next) && |next| == |txs|
  {
    seq(|txs|, i requires 0 <= i < |txs| => i + AtomicGroups.RequestOffset2RelativePosition(txs[i].rqOffset).value)
  }

  /**
   The txs are one atomic group if and only if their requests form one cycle through all of them;
   and that is the case if and only if none of them can be forged without all the others.
   */
  method IsSingleAtomicGroup(txs: seq<PoolL2Tx>) returns (single: bool)
    ensures single <==> Requesting(txs) && OneCycle(Requested(txs))
    ensures single <==> Requesting(txs) && Indivisible(Requested(txs))
  {
    var next: seq<nat> := [];
    for i := 0 to |txs|
      invariant |next| == i
      invariant forall j :: 0 <= j < i ==>
        var r := AtomicGroups.RequestOffset2RelativePosition(txs[j].rqOffset);
        r.Ok? && 0 <= j + r.value < |txs| && next[j] == j + r.value
    {
      var requestedRelativePosition := AtomicGroups.RequestOffset2RelativePosition(txs[i].rqOffset);
      if requestedRelativePosition.Err? {
        assert !Requesting(txs);
        return false;
      }
      var requestedPosition := i + requestedRelativePosition.value;
      if requestedPosition < 0 || requestedPosition >= |txs| {
        assert !Requesting(txs);
        return false;
      }
      next := next + [requestedPosition];
    }
    assert Requesting(txs);
    assert next == Requested(txs);
    var strongComponents := StrongComponents(next);
    OneComponentIff(next, strongComponents);
    CycleIff(next);
    IndivisibleIff(next);
    return |strongComponents| == 1;
  }

  lemma CycleIff(next: seq<nat>)
    requires Graph(next)
    ensures AllReachAll(next) <==> OneCycle(next)
  {
    if AllReachAll(next) {
      CycleFromReach(next);
    }
    if OneCycle(next) {
      ReachFromCycle(next);
    }
  }
}
