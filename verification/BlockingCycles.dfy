/**
 * The blocked-by graph of the waiting tickets: cycles in it, sets of tickets that break all of
 * them, and which tickets such a set is bound to contain.
 */
module BlockingCycles {
  import opened Text

  /** Waiting ticket to its open blockers, as read from the board; blockers need not be waiting. */
  type Graph = map<Key, seq<Key>>

  /** An edge counts only between waiting tickets. */
  predicate Edge(g: Graph, v: Key, w: Key) {
    v in g && w in g && w in g[v]
  }

  ghost predicate IsWalk(g: Graph, p: seq<Key>) {
    forall i, j | 0 <= i < |p| && j == i + 1 < |p| :: Edge(g, p[i], p[j])
  }

  /** A closed walk; a self-link is the shortest one. */
  ghost predicate IsCycle(g: Graph, p: seq<Key>) {
    |p| >= 2 && p[0] == p[|p| - 1] && IsWalk(g, p)
  }

  ghost predicate OnCycle(g: Graph, v: Key) {
    exists p :: IsCycle(g, p) && v in p
  }

  ghost predicate Acyclic(g: Graph) {
    forall p :: !IsCycle(g, p)
  }

  ghost predicate Touches(p: seq<Key>, cut: set<Key>) {
    exists i :: 0 <= i < |p| && p[i] in cut
  }

  /** Taking `cut` out of the graph breaks every cycle. */
  ghost predicate Breaks(g: Graph, cut: set<Key>) {
    forall p :: IsCycle(g, p) ==> Touches(p, cut)
  }

  predicate Within(p: seq<Key>, s: set<Key>) {
    forall i | 0 <= i < |p| :: p[i] in s
  }

  /** Ticket `k` lies on a cycle that is inside `s` as a whole. */
  ghost predicate OnCycleWithin(g: Graph, k: Key, s: set<Key>) {
    exists p :: IsCycle(g, p) && k in p && Within(p, s)
  }

  /** A union of whole cycles. */
  ghost predicate WholeCycles(g: Graph, s: set<Key>) {
    forall k {:trigger OnCycleWithin(g, k, s)} | k in s :: OnCycleWithin(g, k, s)
  }

  function Restrict(g: Graph, ws: seq<Key>): seq<Key> {
    if ws == [] then []
    else if ws[0] in g then [ws[0]] + Restrict(g, ws[1..])
    else Restrict(g, ws[1..])
  }

  lemma {:induction false} RestrictMember(g: Graph, ws: seq<Key>, w: Key)
    ensures w in Restrict(g, ws) <==> w in ws && w in g
  {
    if ws != [] {
      RestrictMember(g, ws[1..], w);
    }
  }

  /** The graph the search walks: every list cut down to waiting tickets. */
  function Restricted(g: Graph): Graph {
    map v | v in g :: Restrict(g, g[v])
  }

  ghost predicate Closed(n: Graph) {
    forall v, j | v in n && 0 <= j < |n[v]| :: n[v][j] in n
  }

  lemma RestrictedIsClosed(g: Graph)
    ensures Closed(Restricted(g)) && Restricted(g).Keys == g.Keys
    ensures forall v, w :: Edge(Restricted(g), v, w) <==> Edge(g, v, w)
  {
    var n := Restricted(g);
    forall v, j | v in n && 0 <= j < |n[v]|
      ensures n[v][j] in n
    {
      RestrictMember(g, g[v], n[v][j]);
    }
    forall v, w
      ensures Edge(n, v, w) <==> Edge(g, v, w)
    {
      if v in g {
        RestrictMember(g, g[v], w);
      }
    }
  }

  /** Cutting the lists down to waiting tickets changes no cycle. */
  lemma SameCycles(g: Graph, p: seq<Key>)
    ensures IsCycle(Restricted(g), p) <==> IsCycle(g, p)
  {
    RestrictedIsClosed(g);
  }

  /** A breaking union of cycles is empty exactly when there is nothing to break. */
  lemma EmptyIffAcyclic(g: Graph, s: set<Key>)
    requires WholeCycles(g, s) && Breaks(g, s)
    ensures s == {} <==> Acyclic(g)
  {
    if k :| k in s {
      assert OnCycleWithin(g, k, s);
    } else {
      forall p
        ensures !IsCycle(g, p)
      {
        assert !Touches(p, s);
      }
    }
  }

  // ---------- which tickets are bound to be returned ----------

  predicate Meet(p: seq<Key>, q: seq<Key>) {
    exists i | 0 <= i < |p| :: p[i] in q
  }

  /** Some cycle through `k` meets only cycles that go through `k` themselves. */
  ghost predicate HasPrivateCycle(g: Graph, k: Key) {
    exists p :: IsCycle(g, p) && k in p && MeetsOnlyCyclesThrough(g, p, k)
  }

  ghost predicate MeetsOnlyCyclesThrough(g: Graph, p: seq<Key>, k: Key) {
    forall q | IsCycle(g, q) && Meet(p, q) :: k in q
  }

  ghost predicate CycleWithout(g: Graph, x: Key, k: Key) {
    exists q :: IsCycle(g, q) && x in q && k !in q
  }

  /** The tickets on cycles that avoid `k`. */
  ghost function OnCyclesWithout(g: Graph, k: Key): set<Key> {
    set x | x in g && CycleWithout(g, x, k)
  }

  lemma CycleNodesAreWaiting(g: Graph, p: seq<Key>, x: Key)
    requires IsCycle(g, p) && x in p
    ensures x in g
  {
    var i :| 0 <= i < |p| && p[i] == x;
    if i + 1 < |p| {
      assert Edge(g, p[i], p[i + 1]);
    } else {
      assert Edge(g, p[i - 1], p[i]);
    }
  }

  lemma CycleAvoidsAsAWhole(g: Graph, q: seq<Key>, k: Key)
    requires IsCycle(g, q) && k !in q
    ensures Within(q, OnCyclesWithout(g, k))
  {
    forall i | 0 <= i < |q|
      ensures q[i] in OnCyclesWithout(g, k)
    {
      CycleNodesAreWaiting(g, q, q[i]);
    }
  }

  /**
   * Every breaking union of cycles contains `k` exactly when `k` has a private cycle. So this is
   * what the two promises of the search guarantee for a ticket, whatever order it reads in.
   */
  lemma BoundToBeReturnedIff(g: Graph, k: Key)
    ensures (forall s: set<Key> | WholeCycles(g, s) && Breaks(g, s) :: k in s) <==> HasPrivateCycle(g, k)
  {
    if HasPrivateCycle(g, k) {
      forall s: set<Key> | WholeCycles(g, s) && Breaks(g, s)
        ensures k in s
      {
        PrivateIsReturned(g, k, s);
      }
    } else {
      UnionWithoutBreaksAll(g, k);
      assert k !in OnCyclesWithout(g, k);
    }
  }

  lemma PrivateIsReturned(g: Graph, k: Key, s: set<Key>)
    requires HasPrivateCycle(g, k) && WholeCycles(g, s) && Breaks(g, s)
    ensures k in s
  {
    var p :| IsCycle(g, p) && k in p && MeetsOnlyCyclesThrough(g, p, k);
    var i :| 0 <= i < |p| && p[i] in s;
    assert OnCycleWithin(g, p[i], s);
    var q :| IsCycle(g, q) && p[i] in q && Within(q, s);
    assert Meet(p, q);
  }

  lemma UnionWithoutBreaksAll(g: Graph, k: Key)
    requires !HasPrivateCycle(g, k)
    ensures WholeCycles(g, OnCyclesWithout(g, k)) && Breaks(g, OnCyclesWithout(g, k))
  {
    var s := OnCyclesWithout(g, k);
    forall x | x in s
      ensures OnCycleWithin(g, x, s)
    {
      var q :| IsCycle(g, q) && x in q && k !in q;
      CycleAvoidsAsAWhole(g, q, k);
    }
    forall p | IsCycle(g, p)
      ensures Touches(p, s)
    {
      if k in p {
        assert !MeetsOnlyCyclesThrough(g, p, k);
        var q :| IsCycle(g, q) && Meet(p, q) && k !in q;
        CycleAvoidsAsAWhole(g, q, k);
        var i :| 0 <= i < |p| && p[i] in q;
        var j :| 0 <= j < |q| && q[j] == p[i];
        assert q[j] in s;
      } else {
        CycleAvoidsAsAWhole(g, p, k);
        assert p[0] in s;
      }
    }
  }

  // ---------- cycles around one ticket ----------

  /** A cycle through `k` whose other tickets are all blocked by `k` directly. */
  ghost predicate HasHubCycle(g: Graph, k: Key) {
    exists p :: IsCycle(g, p) && k in p && AroundHub(g, p, k)
  }

  ghost predicate AroundHub(g: Graph, p: seq<Key>, k: Key) {
    forall i | 0 <= i < |p| :: p[i] == k || Edge(g, p[i], k)
  }

  /** Tickets that block each other have one. */
  lemma MutualBlockersHaveHubCycles(g: Graph, v: Key, w: Key)
    requires Edge(g, v, w) && Edge(g, w, v)
    ensures HasHubCycle(g, v)
  {
    var p := [v, w, v];
    assert IsCycle(g, p) && v in p && AroundHub(g, p, v);
  }

  ghost predicate Symmetric(g: Graph) {
    forall v, w | Edge(g, v, w) :: Edge(g, w, v)
  }

  lemma CycleNodeHasASuccessor(g: Graph, k: Key) returns (w: Key)
    requires OnCycle(g, k)
    ensures Edge(g, k, w)
  {
    var p :| IsCycle(g, p) && k in p;
    var i :| 0 <= i < |p| && p[i] == k;
    var at := if i + 1 < |p| then i else 0;
    w := p[at + 1];
    assert p[at] == k && Edge(g, p[at], p[at + 1]);
  }

  // ---------- the common case: one waiting blocker each ----------

  ghost predicate OneBlockerEach(g: Graph) {
    forall v, w, x | Edge(g, v, w) && Edge(g, v, x) :: w == x
  }

  /** A walk that starts on a cycle cannot leave it. */
  lemma {:induction false} WalkStaysOnCycle(g: Graph, p: seq<Key>, q: seq<Key>)
    requires OneBlockerEach(g) && IsWalk(g, p) && p != [] && IsCycle(g, q) && p[0] in q
    ensures forall i | 0 <= i < |p| :: p[i] in q
    decreases |p|
  {
    if |p| > 1 {
      var i :| 0 <= i < |q| && q[i] == p[0];
      var at := if i + 1 < |q| then i else 0;
      assert q[at] == p[0] && Edge(g, q[at], q[at + 1]) && Edge(g, p[0], p[1]);
      WalkStaysOnCycle(g, p[1..], q);
      assert forall j | 1 <= j < |p| :: p[j] == p[1..][j - 1];
    }
  }

  /** Where no ticket has two waiting blockers, every ticket on a cycle has a private one. */
  lemma OneBlockerMakesCyclesPrivate(g: Graph, k: Key)
    requires OneBlockerEach(g) && OnCycle(g, k)
    ensures HasPrivateCycle(g, k)
  {
    var p :| IsCycle(g, p) && k in p;
    forall q | IsCycle(g, q) && Meet(p, q)
      ensures k in q
    {
      var i :| 0 <= i < |p| && p[i] in q;
      var tail := p[i..];
      WalkStaysOnCycle(g, tail, q);
      assert tail[|tail| - 1] == p[0];
      WalkStaysOnCycle(g, p, q);
    }
    assert MeetsOnlyCyclesThrough(g, p, k);
  }
}
