/**
 * The iterative three-colour depth-first search for blocked-by cycles: one turn of its loop as a
 * function, the class that performs the turns in place, and exactly which tickets it returns.
 */
module CycleSearch {
  import opened BlockingCycles
  import opened Text

  datatype Color = Gray | Black

  /** A node on the search path with the successors not read yet; they are read from the end. */
  datatype Frame = Frame(node: Key, nexts: seq<Key>)

  /**
   * The variables of the search. `rank` numbers the finished nodes in the order they were finished,
   * `clock` is the next number, and `since` is the clock as each node was entered.
   */
  datatype Trail = Trail(
    color: map<Key, Color>, stack: seq<Key>, path: seq<Frame>, marked: set<Key>,
    rank: map<Key, nat>, clock: nat, since: map<Key, nat>)

  const FRESH: Trail := Trail(map[], [], [], {}, map[], 0, map[])

  // ---------- the search as a function ----------

  /** The successor a frame reads next, and the frame after reading it. */
  function LastNext(f: Frame): Key
    requires f.nexts != []
  {
    f.nexts[|f.nexts| - 1]
  }

  function Popped(f: Frame): Frame
    requires f.nexts != []
  {
    f.(nexts := f.nexts[..|f.nexts| - 1])
  }

  function IndexOf(stack: seq<Key>, k: Key): (i: nat)
    ensures i <= |stack| && (k in stack ==> i < |stack| && stack[i] == k)
  {
    if stack == [] || stack[0] == k then 0 else 1 + IndexOf(stack[1..], k)
  }

  /** The stack from position `lo` up. */
  function From(stack: seq<Key>, lo: nat): set<Key> {
    set j | lo <= j < |stack| :: stack[j]
  }

  /** A frame has read a tail of its successors. */
  predicate Reading(n: Graph, f: Frame) {
    f.node in n && f.nexts <= n[f.node]
  }

  predicate AllReading(n: Graph, path: seq<Frame>) {
    forall i | 0 <= i < |path| :: Reading(n, path[i])
  }

  function Started(n: Graph, s: Trail, start: Key): Trail
    requires start in n
  {
    s.(color := s.color[start := Gray], stack := [start], path := [Frame(start, n[start])], since := s.since[start := s.clock])
  }

  function Left(s: Trail): Trail
    requires s.path != []
  {
    var top := |s.path| - 1;
    var node := s.path[top].node;
    s.(color := s.color[node := Black], stack := if s.stack == [] then [] else s.stack[..|s.stack| - 1], path := s.path[..top],
       rank := s.rank[node := s.clock], clock := s.clock + 1)
  }

  function Read(s: Trail): seq<Frame>
    requires s.path != [] && s.path[|s.path| - 1].nexts != []
  {
    s.path[|s.path| - 1 := Popped(s.path[|s.path| - 1])]
  }

  function Descended(n: Graph, s: Trail, next: Key): Trail
    requires s.path != [] && s.path[|s.path| - 1].nexts != [] && next in n
  {
    s.(color := s.color[next := Gray], stack := s.stack + [next], path := Read(s) + [Frame(next, n[next])],
       since := s.since[next := s.clock])
  }

  lemma NextIsWaiting(n: Graph, f: Frame)
    requires Closed(n) && Reading(n, f) && f.nexts != []
    ensures LastNext(f) in n && Edge(n, f.node, LastNext(f)) && Reading(n, Popped(f))
  {
    assert n[f.node][|f.nexts| - 1] == LastNext(f);
  }

  /** One turn of the search loop. */
  function Turn(n: Graph, s: Trail): (s': Trail)
    requires Closed(n) && AllReading(n, s.path) && s.path != []
    ensures AllReading(n, s'.path)
  {
    var frame := s.path[|s.path| - 1];
    if frame.nexts == [] then Left(s)
    else
      var next := LastNext(frame);
      NextIsWaiting(n, frame);
      if next !in s.color then Descended(n, s, next)
      else if s.color[next].Gray? then s.(path := Read(s), marked := s.marked + From(s.stack, IndexOf(s.stack, next)))
      else s.(path := Read(s))
  }

  function Unread(path: seq<Frame>): nat {
    if path == [] then 0 else |path[|path| - 1].nexts|
  }

  /** One visit: turns until the path is empty. */
  function Drained(n: Graph, s: Trail): (end: Trail)
    requires Closed(n) && AllReading(n, s.path)
    ensures end.path == []
    decreases n.Keys - s.color.Keys, |s.path|, Unread(s.path)
  {
    if s.path == [] then s
    else
      assert Reading(n, s.path[|s.path| - 1]);
      TurnProgresses(n, s);
      Drained(n, Turn(n, s))
  }

  /** What makes the search end: a new colour, or a shorter path, or fewer successors left to read. */
  lemma TurnProgresses(n: Graph, s: Trail)
    requires Closed(n) && AllReading(n, s.path) && s.path != []
    ensures var s' := Turn(n, s);
            || n.Keys - s'.color.Keys < n.Keys - s.color.Keys
            || (n.Keys - s'.color.Keys == n.Keys - s.color.Keys && |s'.path| < |s.path|)
            || (n.Keys - s'.color.Keys == n.Keys - s.color.Keys && |s'.path| == |s.path| && Unread(s'.path) < Unread(s.path))
  {
    var frame := s.path[|s.path| - 1];
    assert Reading(n, frame);
    if frame.nexts != [] {
      NextIsWaiting(n, frame);
      if LastNext(frame) !in s.color {
        assert LastNext(frame) in n.Keys - s.color.Keys;
      }
    }
  }

  /** The whole search: a visit from every ticket not reached yet. */
  function Searched(n: Graph, s: Trail, order: seq<Key>): Trail
    requires Closed(n)
    decreases |order|
  {
    if order == [] then s
    else Searched(n, VisitedOnce(n, s, order[0]), order[1..])
  }

  function Search(edges: Graph, order: seq<Key>): Trail {
    RestrictedIsClosed(edges);
    Searched(Restricted(edges), FRESH, order)
  }

  // ---------- the invariant over a closed graph `n` ----------

  /** `stack` is the gray nodes, the nodes of `path`, in order and without repetition. */
  ghost predicate Shape(n: Graph, s: Trail) {
    && |s.stack| == |s.path|
    && (forall i | 0 <= i < |s.path| :: s.path[i].node == s.stack[i])
    && (forall i | 0 <= i < |s.stack| :: s.stack[i] in n && s.stack[i] in s.color && s.color[s.stack[i]].Gray?)
    && (forall i, j | 0 <= i < j < |s.stack| :: s.stack[i] != s.stack[j])
    && (forall k | k in s.color :: k in n && (s.color[k].Gray? ==> k in s.stack))
  }

  /** The successor a frame has read last. */
  predicate ReadLast(n: Graph, f: Frame, w: Key) {
    f.node in n && |f.nexts| < |n[f.node]| && n[f.node][|f.nexts|] == w
  }

  /** The last successor each frame has read is the next node up the path. */
  ghost predicate Frames(n: Graph, path: seq<Frame>) {
    && AllReading(n, path)
    && (forall i, j | 0 <= i < |path| && j == i + 1 < |path| :: ReadLast(n, path[i], path[j].node))
  }

  /** The finished nodes are numbered below the clock, and every reached node knows its clock. */
  ghost predicate Numbered(n: Graph, s: Trail) {
    && (forall k :: k in s.rank <==> k in s.color && s.color[k].Black?)
    && (forall k | k in s.rank :: s.rank[k] < s.clock)
    && s.since.Keys == s.color.Keys && s.marked <= s.color.Keys
    && (forall k | k in s.since :: s.since[k] <= s.clock && (k in s.rank ==> s.since[k] <= s.rank[k]))
  }

  /** `y` is on the stack above position `i`. */
  predicate Above(stack: seq<Key>, i: nat, y: Key) {
    exists j | i < j < |stack| :: stack[j] == y
  }

  /** All edges out of nodes finished since `bound` lead to finished nodes or up the stack. */
  ghost predicate FinishedLeadOn(n: Graph, s: Trail, bound: nat, i: nat) {
    forall x, y | Edge(n, x, y) && x in s.rank && s.rank[x] >= bound :: y in s.rank || Above(s.stack, i, y)
  }

  /** So do the successors a frame has read. */
  ghost predicate ReadLeadOn(n: Graph, s: Trail, f: Frame, i: nat) {
    f.node in n && forall m | |f.nexts| <= m < |n[f.node]| :: n[f.node][m] in s.rank || Above(s.stack, i, n[f.node][m])
  }

  /** Nothing reached since an unmarked stack node was entered leads back to it or below. */
  ghost predicate QuietAt(n: Graph, s: Trail, i: nat)
    requires i < |s.stack|
  {
    s.stack[i] in s.marked || (
      && s.stack[i] in s.since && FinishedLeadOn(n, s, s.since[s.stack[i]], i)
      && forall j | i <= j < |s.path| :: ReadLeadOn(n, s, s.path[j], i))
  }

  ghost predicate Quiet(n: Graph, s: Trail) {
    forall i | 0 <= i < |s.stack| :: QuietAt(n, s, i)
  }

  /** The cycle meets a node finished before the clock read `bound`. */
  predicate MeetsFinished(p: seq<Key>, rank: map<Key, nat>, bound: nat) {
    exists i | 0 <= i < |p| :: p[i] in rank && rank[p[i]] < bound
  }

  /** A cycle through `k`, inside the set `s`, none of whose nodes was finished when the clock read `bound`. */
  ghost predicate OnOpenCycle(n: Graph, k: Key, s: set<Key>, rank: map<Key, nat>, bound: nat) {
    exists p :: IsCycle(n, p) && k in p && Within(p, s) && !MeetsFinished(p, rank, bound)
  }

  /** Every cycle through `k` meets a node that was finished when the clock read `bound`. */
  ghost predicate Barren(n: Graph, k: Key, rank: map<Key, nat>, bound: nat) {
    forall p | IsCycle(n, p) && k in p :: MeetsFinished(p, rank, bound)
  }

  /** Marked nodes lie on a marked cycle that was open as they were entered; unmarked finished ones on none. */
  ghost predicate Judged(n: Graph, s: Trail) {
    forall k {:trigger Verdict(n, s, k)} | k in s.marked || k in s.rank :: Verdict(n, s, k)
  }

  ghost predicate Verdict(n: Graph, s: Trail, k: Key) {
    && k in s.since
    && if k in s.marked then OnOpenCycle(n, k, s.marked, s.rank, s.since[k]) else Barren(n, k, s.rank, s.since[k])
  }

  /** The successors a frame has read are reached. */
  predicate ReadReached(n: Graph, s: Trail, f: Frame) {
    f.node in n && forall m | |f.nexts| <= m < |n[f.node]| :: n[f.node][m] in s.color
  }

  /** A node is finished only after its successors have been entered. */
  ghost predicate Reached(n: Graph, s: Trail) {
    && (forall i | 0 <= i < |s.path| :: ReadReached(n, s, s.path[i]))
    && (forall x, y | Edge(n, x, y) && x in s.rank :: y in s.since && s.since[y] <= s.rank[x])
  }

  ghost predicate Sound(n: Graph, s: Trail) {
    Closed(n) && Shape(n, s) && Frames(n, s.path) && Numbered(n, s) && Quiet(n, s) && Judged(n, s) && Reached(n, s)
  }

  // ---------- how verdicts survive ----------

  /** Later finishes get later numbers. */
  ghost predicate Grows(rank: map<Key, nat>, clock: nat, rank': map<Key, nat>) {
    forall k | k in rank' :: (k in rank && rank'[k] == rank[k]) || (k !in rank && rank'[k] >= clock)
  }

  lemma OpenCycleSurvives(n: Graph, k: Key, s: set<Key>, s': set<Key>, rank: map<Key, nat>, clock: nat, rank': map<Key, nat>, bound: nat)
    requires OnOpenCycle(n, k, s, rank, bound) && s <= s' && Grows(rank, clock, rank') && bound <= clock
    ensures OnOpenCycle(n, k, s', rank', bound)
  {
    var p :| IsCycle(n, p) && k in p && Within(p, s) && !MeetsFinished(p, rank, bound);
    assert Within(p, s') && !MeetsFinished(p, rank', bound);
  }

  lemma BarrenSurvives(n: Graph, k: Key, rank: map<Key, nat>, rank': map<Key, nat>, bound: nat)
    requires Barren(n, k, rank, bound) && forall x | x in rank :: x in rank' && rank'[x] == rank[x]
    ensures Barren(n, k, rank', bound)
  {
    forall p | IsCycle(n, p) && k in p
      ensures MeetsFinished(p, rank', bound)
    {
      var i :| 0 <= i < |p| && p[i] in rank && rank[p[i]] < bound;
      assert rank'[p[i]] < bound;
    }
  }

  // ---------- leaving a node ----------

  lemma LeaveShape(n: Graph, s: Trail)
    requires Shape(n, s) && s.path != []
    ensures Shape(n, Left(s))
  {
    var node, stack := s.path[|s.path| - 1].node, s.stack[..|s.stack| - 1];
    forall k | k in s.stack && k != node
      ensures k in stack
    {
    }
  }

  lemma LeaveNumbers(n: Graph, s: Trail)
    requires Shape(n, s) && Numbered(n, s) && s.path != []
    ensures Numbered(n, Left(s)) && Grows(s.rank, s.clock, Left(s).rank)
    ensures s.path[|s.path| - 1].node !in s.rank
  {
    assert s.path[|s.path| - 1].node == s.stack[|s.stack| - 1];
  }

  lemma AboveShrinks(stack: seq<Key>, i: nat, y: Key)
    requires stack != [] && Above(stack, i, y)
    ensures y == stack[|stack| - 1] || Above(stack[..|stack| - 1], i, y)
  {
    var j :| i < j < |stack| && stack[j] == y;
    if j < |stack| - 1 {
      assert stack[..|stack| - 1][j] == y;
    }
  }

  lemma SeenAfterLeaving(n: Graph, s: Trail, i: nat, y: Key)
    requires Shape(n, s) && s.path != [] && (y in s.rank || Above(s.stack, i, y))
    ensures y in Left(s).rank || Above(Left(s).stack, i, y)
  {
    if y !in s.rank {
      AboveShrinks(s.stack, i, y);
    }
  }

  lemma LeaveFinishedLeadOn(n: Graph, s: Trail, bound: nat, i: nat)
    requires Shape(n, s) && s.path != [] && s.path[|s.path| - 1].nexts == []
    requires FinishedLeadOn(n, s, bound, i) && ReadLeadOn(n, s, s.path[|s.path| - 1], i)
    ensures FinishedLeadOn(n, Left(s), bound, i)
  {
    var node := s.path[|s.path| - 1].node;
    forall x, y | Edge(n, x, y) && x in Left(s).rank && Left(s).rank[x] >= bound
      ensures y in Left(s).rank || Above(Left(s).stack, i, y)
    {
      if x == node {
        var m :| 0 <= m < |n[x]| && n[x][m] == y;
        assert y in s.rank || Above(s.stack, i, y);
      }
      SeenAfterLeaving(n, s, i, y);
    }
  }

  lemma LeaveReadLeadOn(n: Graph, s: Trail, f: Frame, i: nat)
    requires Shape(n, s) && s.path != [] && ReadLeadOn(n, s, f, i)
    ensures ReadLeadOn(n, Left(s), f, i)
  {
    forall m | |f.nexts| <= m < |n[f.node]|
      ensures n[f.node][m] in Left(s).rank || Above(Left(s).stack, i, n[f.node][m])
    {
      SeenAfterLeaving(n, s, i, n[f.node][m]);
    }
  }

  lemma LeaveQuietAt(n: Graph, s: Trail, i: nat)
    requires Shape(n, s) && Numbered(n, s) && s.path != [] && s.path[|s.path| - 1].nexts == []
    requires i < |s.stack| - 1 && QuietAt(n, s, i)
    ensures QuietAt(n, Left(s), i)
  {
    if s.stack[i] !in s.marked {
      LeaveFinishedLeadOn(n, s, s.since[s.stack[i]], i);
      forall j | i <= j < |Left(s).path|
        ensures ReadLeadOn(n, Left(s), Left(s).path[j], i)
      {
        assert ReadLeadOn(n, s, s.path[j], i);
        LeaveReadLeadOn(n, s, s.path[j], i);
      }
    }
  }

  /** The nodes finished since `bound` have all their edges among themselves and older ones. */
  lemma {:induction false} WalkStaysFinished(n: Graph, rank: map<Key, nat>, bound: nat, p: seq<Key>)
    requires IsWalk(n, p) && p != [] && p[0] in rank && rank[p[0]] >= bound && !MeetsFinished(p, rank, bound)
    requires forall x, y | Edge(n, x, y) && x in rank && rank[x] >= bound :: y in rank
    ensures forall i | 0 <= i < |p| :: p[i] in rank
    decreases |p|
  {
    if |p| > 1 {
      assert Edge(n, p[0], p[1]);
      assert rank[p[1]] >= bound;
      assert !MeetsFinished(p[1..], rank, bound);
      WalkStaysFinished(n, rank, bound, p[1..]);
      assert forall i | 1 <= i < |p| :: p[i] == p[1..][i - 1];
    }
  }

  lemma SliceMeetsNone(p: seq<Key>, rank: map<Key, nat>, bound: nat, lo: nat, hi: nat)
    requires !MeetsFinished(p, rank, bound) && lo <= hi <= |p|
    ensures !MeetsFinished(p[lo..hi], rank, bound)
  {
  }

  /** A cycle from an unfinished node into a node finished since `bound` comes back through an older one. */
  lemma ReturnsFrom(n: Graph, rank: map<Key, nat>, bound: nat, p: seq<Key>, at: nat)
    requires IsCycle(n, p) && at + 1 < |p| && p[at] !in rank && p[at + 1] in rank
    requires forall x, y | Edge(n, x, y) && x in rank && rank[x] >= bound :: y in rank
    ensures MeetsFinished(p, rank, bound)
  {
    if !MeetsFinished(p, rank, bound) {
      var tail, head := p[at + 1..|p|], p[0..at + 1];
      SliceMeetsNone(p, rank, bound, at + 1, |p|);
      SliceMeetsNone(p, rank, bound, 0, at + 1);
      assert tail[0] == p[at + 1] && rank[p[at + 1]] >= bound;
      WalkStaysFinished(n, rank, bound, tail);
      assert tail[|tail| - 1] == p[|p| - 1] == p[0] == head[0] && rank[p[0]] >= bound && head[at] == p[at];
      WalkStaysFinished(n, rank, bound, head);
    }
  }

  /** A cycle through an unfinished node whose successors are all finished comes back through an older one. */
  lemma ReturnsThroughOlder(n: Graph, rank: map<Key, nat>, bound: nat, node: Key, p: seq<Key>)
    requires IsCycle(n, p) && node in p && node !in rank
    requires forall y | Edge(n, node, y) :: y in rank
    requires forall x, y | Edge(n, x, y) && x in rank && rank[x] >= bound :: y in rank
    ensures MeetsFinished(p, rank, bound)
  {
    var i :| 0 <= i < |p| && p[i] == node;
    var at := if i + 1 < |p| then i else 0;
    assert p[at] == node && Edge(n, p[at], p[at + 1]);
    ReturnsFrom(n, rank, bound, p, at);
  }

  /** An unmarked node is left only when every cycle through it runs into an older finished node. */
  lemma LeftUnmarkedIsBarren(n: Graph, s: Trail)
    requires Shape(n, s) && Numbered(n, s) && Quiet(n, s) && s.path != [] && s.path[|s.path| - 1].nexts == []
    requires s.stack[|s.stack| - 1] !in s.marked
    ensures var node := s.path[|s.path| - 1].node; node in s.since && Barren(n, node, s.rank, s.since[node])
  {
    var top := |s.path| - 1;
    var node := s.stack[top];
    assert QuietAt(n, s, top) && node !in s.rank;
    var bound := s.since[node];
    assert ReadLeadOn(n, s, s.path[top], top);
    forall y | Edge(n, node, y)
      ensures y in s.rank
    {
      var m :| 0 <= m < |n[node]| && n[node][m] == y;
    }
    forall p | IsCycle(n, p) && node in p
      ensures MeetsFinished(p, s.rank, bound)
    {
      ReturnsThroughOlder(n, s.rank, bound, node, p);
    }
  }

  lemma LeaveJudges(n: Graph, s: Trail)
    requires Sound(n, s) && s.path != [] && s.path[|s.path| - 1].nexts == []
    ensures Judged(n, Left(s))
  {
    var s' := Left(s);
    var node := s.path[|s.path| - 1].node;
    assert node == s.stack[|s.stack| - 1];
    LeaveNumbers(n, s);
    forall k | k in s'.marked || k in s'.rank
      ensures Verdict(n, s', k)
    {
      if k in s.marked {
        assert Verdict(n, s, k);
        OpenCycleSurvives(n, k, s.marked, s.marked, s.rank, s.clock, s'.rank, s.since[k]);
      } else {
        if k == node {
          LeftUnmarkedIsBarren(n, s);
        } else {
          assert Verdict(n, s, k);
        }
        BarrenSurvives(n, k, s.rank, s'.rank, s.since[k]);
      }
    }
  }

  lemma LeaveReached(n: Graph, s: Trail)
    requires Shape(n, s) && Numbered(n, s) && Reached(n, s) && s.path != [] && s.path[|s.path| - 1].nexts == []
    ensures Reached(n, Left(s))
  {
    var s', top := Left(s), |s.path| - 1;
    var node := s.path[top].node;
    assert node == s.stack[top] && ReadReached(n, s, s.path[top]);
    forall i | 0 <= i < |s'.path|
      ensures ReadReached(n, s', s'.path[i])
    {
      assert ReadReached(n, s, s.path[i]);
    }
    forall x, y | Edge(n, x, y) && x in s'.rank
      ensures y in s'.since && s'.since[y] <= s'.rank[x]
    {
      if x == node {
        var m :| 0 <= m < |n[x]| && n[x][m] == y;
        assert y in s.color.Keys;
      }
    }
  }

  lemma LeaveKeepsSound(n: Graph, s: Trail)
    requires Sound(n, s) && s.path != [] && s.path[|s.path| - 1].nexts == []
    ensures Sound(n, Left(s))
  {
    LeaveShape(n, s);
    LeaveNumbers(n, s);
    LeaveJudges(n, s);
    LeaveReached(n, s);
    forall i | 0 <= i < |Left(s).stack|
      ensures QuietAt(n, Left(s), i)
    {
      LeaveQuietAt(n, s, i);
    }
    assert Frames(n, Left(s).path);
  }

  // ---------- reading a successor ----------

  lemma ReadKeepsFrames(n: Graph, s: Trail)
    requires Closed(n) && Shape(n, s) && Frames(n, s.path) && s.path != [] && s.path[|s.path| - 1].nexts != []
    ensures var next := LastNext(s.path[|s.path| - 1]);
            && Edge(n, s.stack[|s.stack| - 1], next) && ReadLast(n, Popped(s.path[|s.path| - 1]), next)
            && Frames(n, Read(s)) && Shape(n, s.(path := Read(s)))
  {
    var f := s.path[|s.path| - 1];
    assert Reading(n, f);
    NextIsWaiting(n, f);
  }

  lemma ReadKeepsReached(n: Graph, s: Trail, s': Trail)
    requires Reached(n, s) && s.path != [] && s.path[|s.path| - 1].nexts != []
    requires ReadLast(n, Popped(s.path[|s.path| - 1]), LastNext(s.path[|s.path| - 1])) && LastNext(s.path[|s.path| - 1]) in s.color
    requires s'.path == Read(s) && s'.color == s.color && s'.rank == s.rank && s'.since == s.since
    ensures Reached(n, s')
  {
    forall i | 0 <= i < |s'.path|
      ensures ReadReached(n, s', s'.path[i])
    {
      assert ReadReached(n, s, s.path[i]);
    }
  }

  lemma ReadOneMore(n: Graph, s: Trail, f: Frame, i: nat)
    requires ReadLeadOn(n, s, f, i) && f.nexts != [] && ReadLast(n, Popped(f), LastNext(f))
    requires LastNext(f) in s.rank || Above(s.stack, i, LastNext(f))
    ensures ReadLeadOn(n, s, Popped(f), i)
  {
  }

  /** What an unmarked stack node must see of the successor just read. */
  lemma ReadQuietAt(n: Graph, s: Trail, i: nat, s': Trail)
    requires Closed(n) && Shape(n, s) && Frames(n, s.path) && s.path != [] && s.path[|s.path| - 1].nexts != []
    requires i < |s.stack| && QuietAt(n, s, i)
    requires s'.path == Read(s) && s'.stack == s.stack && s'.rank == s.rank && s'.since == s.since && s.marked <= s'.marked
    requires s.stack[i] in s'.marked || LastNext(s.path[|s.path| - 1]) in s.rank || Above(s.stack, i, LastNext(s.path[|s.path| - 1]))
    ensures QuietAt(n, s', i)
  {
    if s'.stack[i] !in s'.marked {
      ReadKeepsFrames(n, s);
      SameRanksLeadOn(n, s, s', s.since[s.stack[i]], i);
      ReadFramesLeadOn(n, s, i, s');
    }
  }

  lemma SameRanksLeadOn(n: Graph, s: Trail, s': Trail, bound: nat, i: nat)
    requires s'.stack == s.stack && s'.rank == s.rank && FinishedLeadOn(n, s, bound, i)
    ensures FinishedLeadOn(n, s', bound, i)
  {
  }

  lemma ReadFramesLeadOn(n: Graph, s: Trail, i: nat, s': Trail)
    requires s.path != [] && s.path[|s.path| - 1].nexts != [] && i < |s.path|
    requires s'.path == Read(s) && s'.stack == s.stack && s'.rank == s.rank
    requires forall j | i <= j < |s.path| :: ReadLeadOn(n, s, s.path[j], i)
    requires ReadLast(n, Popped(s.path[|s.path| - 1]), LastNext(s.path[|s.path| - 1]))
    requires LastNext(s.path[|s.path| - 1]) in s.rank || Above(s.stack, i, LastNext(s.path[|s.path| - 1]))
    ensures forall j | i <= j < |s'.path| :: ReadLeadOn(n, s', s'.path[j], i)
  {
    forall j | i <= j < |s'.path|
      ensures ReadLeadOn(n, s', s'.path[j], i)
    {
      assert ReadLeadOn(n, s, s.path[j], i);
      if j == |s.path| - 1 {
        ReadOneMore(n, s, s.path[j], i);
      }
    }
  }

  /** The stack from `lo` up, closed by an edge back to its first node. */
  function Loop(stack: seq<Key>, lo: nat): seq<Key>
    requires lo < |stack|
  {
    stack[lo..] + [stack[lo]]
  }

  lemma LoopIsACycle(n: Graph, s: Trail, lo: nat)
    requires Shape(n, s) && Frames(n, s.path) && lo < |s.stack| && Edge(n, s.stack[|s.stack| - 1], s.stack[lo])
    ensures IsCycle(n, Loop(s.stack, lo))
  {
    var cycle := Loop(s.stack, lo);
    forall i, j | 0 <= i < |cycle| && j == i + 1 < |cycle|
      ensures Edge(n, cycle[i], cycle[j])
    {
      if lo + j < |s.stack| {
        assert ReadLast(n, s.path[lo + i], s.path[lo + j].node);
      }
    }
  }

  lemma LoopIsTheStack(stack: seq<Key>, lo: nat, k: Key)
    requires lo < |stack|
    ensures Within(Loop(stack, lo), From(stack, lo)) && (k in From(stack, lo) ==> k in Loop(stack, lo))
  {
    var cycle := Loop(stack, lo);
    forall i | 0 <= i < |cycle|
      ensures cycle[i] in From(stack, lo)
    {
      assert cycle[i] == stack[if lo + i < |stack| then lo + i else lo];
    }
    if k in From(stack, lo) {
      var at :| lo <= at < |stack| && stack[at] == k;
      assert cycle[at - lo] == k;
    }
  }

  /** A back edge closes the walk from its target to the top of the stack, and nothing on it was finished before. */
  lemma BackEdge(n: Graph, s: Trail, lo: nat, bound: nat, k: Key)
    requires Shape(n, s) && Frames(n, s.path) && Numbered(n, s) && s.path != [] && lo < |s.stack|
    requires Edge(n, s.stack[|s.stack| - 1], s.stack[lo]) && k in From(s.stack, lo)
    ensures OnOpenCycle(n, k, From(s.stack, lo), s.rank, bound)
  {
    LoopIsACycle(n, s, lo);
    LoopIsTheStack(s.stack, lo, k);
    var cycle := Loop(s.stack, lo);
    forall i | 0 <= i < |cycle|
      ensures cycle[i] !in s.rank
    {
      assert cycle[i] in From(s.stack, lo);
    }
    assert !MeetsFinished(cycle, s.rank, bound);
  }

  lemma MarkJudges(n: Graph, s: Trail, lo: nat, s': Trail)
    requires Sound(n, s) && s.path != [] && lo < |s.stack| && Edge(n, s.stack[|s.stack| - 1], s.stack[lo])
    requires s'.marked == s.marked + From(s.stack, lo) && s'.rank == s.rank && s'.since == s.since
    ensures Judged(n, s')
  {
    forall k | k in s'.marked || k in s'.rank
      ensures Verdict(n, s', k)
    {
      if k !in s'.marked {
        assert Verdict(n, s, k);
      } else if k in s.marked {
        assert Verdict(n, s, k);
        OpenCycleSurvives(n, k, s.marked, s'.marked, s.rank, s.clock, s.rank, s.since[k]);
      } else {
        BackEdge(n, s, lo, s.since[k], k);
        OpenCycleSurvives(n, k, From(s.stack, lo), s'.marked, s.rank, s.clock, s.rank, s.since[k]);
      }
    }
  }

  lemma MarkKeepsQuiet(n: Graph, s: Trail, lo: nat, s': Trail)
    requires Closed(n) && Shape(n, s) && Frames(n, s.path) && Quiet(n, s) && s.path != [] && s.path[|s.path| - 1].nexts != []
    requires lo < |s.stack| && s.stack[lo] == LastNext(s.path[|s.path| - 1])
    requires s' == s.(path := Read(s), marked := s.marked + From(s.stack, lo))
    ensures Quiet(n, s')
  {
    forall i | 0 <= i < |s'.stack|
      ensures QuietAt(n, s', i)
    {
      assert QuietAt(n, s, i);
      if i < lo {
        assert Above(s.stack, i, s.stack[lo]);
      } else {
        assert s.stack[i] in From(s.stack, lo);
      }
      ReadQuietAt(n, s, i, s');
    }
  }

  lemma MarkNumbers(n: Graph, s: Trail, lo: nat, s': Trail)
    requires Shape(n, s) && Numbered(n, s)
    requires s'.marked == s.marked + From(s.stack, lo)
    requires s'.color == s.color && s'.rank == s.rank && s'.clock == s.clock && s'.since == s.since
    ensures Numbered(n, s')
  {
  }

  lemma TurnMarks(n: Graph, s: Trail)
    requires Closed(n) && AllReading(n, s.path) && s.path != [] && s.path[|s.path| - 1].nexts != []
    requires var next := LastNext(s.path[|s.path| - 1]); next in s.color && s.color[next].Gray? && next in s.stack
    ensures var next := LastNext(s.path[|s.path| - 1]);
            var lo := IndexOf(s.stack, next);
            && lo < |s.stack| && s.stack[lo] == next
            && Turn(n, s) == s.(path := Read(s), marked := s.marked + From(s.stack, lo))
  {
  }

  lemma MarkKeepsSound(n: Graph, s: Trail)
    requires Sound(n, s) && s.path != [] && s.path[|s.path| - 1].nexts != []
    requires var next := LastNext(s.path[|s.path| - 1]); next in s.color && s.color[next].Gray?
    ensures Sound(n, Turn(n, s))
  {
    var lo := IndexOf(s.stack, LastNext(s.path[|s.path| - 1]));
    TurnMarks(n, s);
    ReadKeepsFrames(n, s);
    MarkNumbers(n, s, lo, Turn(n, s));
    MarkJudges(n, s, lo, Turn(n, s));
    MarkKeepsQuiet(n, s, lo, Turn(n, s));
    ReadKeepsReached(n, s, Turn(n, s));
  }

  lemma SkipKeepsSound(n: Graph, s: Trail)
    requires Sound(n, s) && s.path != [] && s.path[|s.path| - 1].nexts != []
    requires var next := LastNext(s.path[|s.path| - 1]); next in s.color && s.color[next].Black?
    ensures Sound(n, Turn(n, s))
  {
    var s' := Turn(n, s);
    ReadKeepsFrames(n, s);
    ReadKeepsReached(n, s, s');
    forall i | 0 <= i < |s'.stack|
      ensures QuietAt(n, s', i)
    {
      ReadQuietAt(n, s, i, s');
    }
    forall k | k in s'.marked || k in s'.rank
      ensures Verdict(n, s', k)
    {
      assert Verdict(n, s, k);
    }
  }

  // ---------- entering a node ----------

  lemma EnterFrames(n: Graph, path: seq<Frame>, next: Frame)
    requires Frames(n, path) && path != [] && Reading(n, next) && ReadLast(n, path[|path| - 1], next.node)
    ensures Frames(n, path + [next])
  {
  }

  lemma EnterShape(n: Graph, s: Trail, next: Frame)
    requires Shape(n, s) && next.node in n && next.node !in s.color
    ensures Shape(n, s.(color := s.color[next.node := Gray], stack := s.stack + [next.node], path := s.path + [next]))
  {
    var stack := s.stack + [next.node];
    assert forall i | 0 <= i < |s.stack| :: stack[i] == s.stack[i];
    forall k | k in s.stack
      ensures k in stack
    {
    }
  }

  lemma AboveGrows(stack: seq<Key>, i: nat, next: Key)
    ensures forall y | Above(stack, i, y) :: Above(stack + [next], i, y)
    ensures i < |stack| ==> Above(stack + [next], i, next)
  {
    forall y | Above(stack, i, y)
      ensures Above(stack + [next], i, y)
    {
      var j :| i < j < |stack| && stack[j] == y;
      assert (stack + [next])[j] == y;
    }
    assert (stack + [next])[|stack|] == next;
  }

  /** A taller stack hides nothing that was seen. */
  lemma SeenStaysSeen(n: Graph, s: Trail, s': Trail, next: Key, f: Frame, bound: nat, i: nat)
    requires s'.stack == s.stack + [next] && s'.rank == s.rank
    ensures ReadLeadOn(n, s, f, i) ==> ReadLeadOn(n, s', f, i)
    ensures FinishedLeadOn(n, s, bound, i) ==> FinishedLeadOn(n, s', bound, i)
  {
    AboveGrows(s.stack, i, next);
  }

  lemma EnterFramesLeadOn(n: Graph, s: Trail, i: nat, next: Key, s': Trail)
    requires s.path != [] && s.path[|s.path| - 1].nexts != [] && i < |s.path| && next == LastNext(s.path[|s.path| - 1]) && next in n
    requires s'.path == Read(s) + [Frame(next, n[next])] && s'.stack == s.stack + [next] && s'.rank == s.rank
    requires forall j | i <= j < |s.path| :: ReadLeadOn(n, s, s.path[j], i)
    requires ReadLast(n, Popped(s.path[|s.path| - 1]), next) && Above(s'.stack, i, next)
    ensures forall j | i <= j < |s'.path| :: ReadLeadOn(n, s', s'.path[j], i)
  {
    forall j | i <= j < |s'.path|
      ensures ReadLeadOn(n, s', s'.path[j], i)
    {
      if j < |s.path| {
        assert ReadLeadOn(n, s, s.path[j], i);
        SeenStaysSeen(n, s, s', next, s.path[j], 0, i);
        if j == |s.path| - 1 {
          ReadOneMore(n, s', s.path[j], i);
        }
      }
    }
  }

  lemma EnterQuietAt(n: Graph, s: Trail, i: nat)
    requires Closed(n) && Shape(n, s) && Frames(n, s.path) && Numbered(n, s) && s.path != [] && s.path[|s.path| - 1].nexts != []
    requires var next := LastNext(s.path[|s.path| - 1]); next in n && next !in s.color
    requires i < |s.stack| && QuietAt(n, s, i)
    ensures QuietAt(n, Descended(n, s, LastNext(s.path[|s.path| - 1])), i)
  {
    var next := LastNext(s.path[|s.path| - 1]);
    var s' := Descended(n, s, next);
    if s.stack[i] !in s.marked {
      ReadKeepsFrames(n, s);
      AboveGrows(s.stack, i, next);
      SeenStaysSeen(n, s, s', next, s.path[i], s.since[s.stack[i]], i);
      EnterFramesLeadOn(n, s, i, next, s');
      assert s'.stack[i] == s.stack[i] && s'.since[s'.stack[i]] == s.since[s.stack[i]];
    }
  }

  lemma EnteredIsQuiet(n: Graph, s: Trail, i: nat)
    requires Numbered(n, s) && |s.stack| == |s.path| == i + 1 && s.stack[i] in s.since && s.since[s.stack[i]] == s.clock
    requires s.path[i].node in n && s.path[i].nexts == n[s.path[i].node]
    ensures QuietAt(n, s, i)
  {
  }

  lemma EnterJudges(n: Graph, s: Trail, s': Trail, next: Key)
    requires Judged(n, s) && Numbered(n, s) && next !in s.color
    requires s'.marked == s.marked && s'.rank == s.rank && s'.since == s.since[next := s.clock]
    ensures Judged(n, s')
  {
    forall k | k in s'.marked || k in s'.rank
      ensures Verdict(n, s', k)
    {
      assert Verdict(n, s, k) && k in s.color;
    }
  }

  lemma EnterKeepsQuiet(n: Graph, s: Trail, next: Key)
    requires Closed(n) && Shape(n, s) && Frames(n, s.path) && Numbered(n, s) && Quiet(n, s)
    requires s.path != [] && s.path[|s.path| - 1].nexts != [] && next == LastNext(s.path[|s.path| - 1]) && next in n && next !in s.color
    requires Numbered(n, Descended(n, s, next))
    ensures Quiet(n, Descended(n, s, next))
  {
    var s' := Descended(n, s, next);
    forall i | 0 <= i < |s'.stack|
      ensures QuietAt(n, s', i)
    {
      if i < |s.stack| {
        EnterQuietAt(n, s, i);
      } else {
        EnteredIsQuiet(n, s', i);
      }
    }
  }

  lemma EnterNumbers(n: Graph, s: Trail, s': Trail, next: Key)
    requires Numbered(n, s) && next !in s.color
    requires s'.color == s.color[next := Gray] && s'.since == s.since[next := s.clock]
    requires s'.marked == s.marked && s'.rank == s.rank && s'.clock == s.clock
    ensures Numbered(n, s')
  {
  }

  lemma EnterReached(n: Graph, s: Trail, next: Key, s': Trail)
    requires Reached(n, s) && Numbered(n, s) && next in n && next !in s.color
    requires s'.color == s.color[next := Gray] && s'.rank == s.rank && s'.since == s.since[next := s.clock]
    requires s'.path == [Frame(next, n[next])] || (
               && s.path != [] && s.path[|s.path| - 1].nexts != [] && next == LastNext(s.path[|s.path| - 1])
               && ReadLast(n, Popped(s.path[|s.path| - 1]), next) && s'.path == Read(s) + [Frame(next, n[next])])
    ensures Reached(n, s')
  {
    forall i | 0 <= i < |s'.path|
      ensures ReadReached(n, s', s'.path[i])
    {
      assert i < |s'.path| - 1 ==> ReadReached(n, s, s.path[i]);
    }
    assert next !in s.since;
  }

  lemma EnterKeepsSound(n: Graph, s: Trail)
    requires Sound(n, s) && s.path != [] && s.path[|s.path| - 1].nexts != [] && LastNext(s.path[|s.path| - 1]) !in s.color
    ensures Sound(n, Turn(n, s))
  {
    var next := LastNext(s.path[|s.path| - 1]);
    ReadKeepsFrames(n, s);
    var s' := Descended(n, s, next);
    EnterFrames(n, Read(s), Frame(next, n[next]));
    EnterShape(n, s.(path := Read(s)), Frame(next, n[next]));
    EnterJudges(n, s, s', next);
    EnterNumbers(n, s, s', next);
    EnterKeepsQuiet(n, s, next);
    EnterReached(n, s, next, s');
  }

  // ---------- turns, visits, the search ----------

  lemma TurnKeepsSound(n: Graph, s: Trail)
    requires Sound(n, s) && s.path != []
    ensures Sound(n, Turn(n, s))
  {
    var frame := s.path[|s.path| - 1];
    if frame.nexts == [] {
      LeaveKeepsSound(n, s);
    } else if LastNext(frame) !in s.color {
      EnterKeepsSound(n, s);
    } else if s.color[LastNext(frame)].Gray? {
      MarkKeepsSound(n, s);
    } else {
      SkipKeepsSound(n, s);
    }
  }

  lemma {:induction false} DrainKeepsSound(n: Graph, s: Trail)
    requires Sound(n, s)
    ensures Sound(n, Drained(n, s)) && s.color.Keys <= Drained(n, s).color.Keys
    decreases n.Keys - s.color.Keys, |s.path|, Unread(s.path)
  {
    if s.path != [] {
      TurnProgresses(n, s);
      TurnKeepsSound(n, s);
      DrainKeepsSound(n, Turn(n, s));
    }
  }

  lemma StartKeepsSound(n: Graph, s: Trail, start: Key)
    requires Sound(n, s) && s.path == [] && start in n && start !in s.color
    ensures Sound(n, Started(n, s, start)) && start in Started(n, s, start).color
  {
    var s' := Started(n, s, start);
    EnterJudges(n, s, s', start);
    EnterReached(n, s, start, s');
    assert Numbered(n, s');
    EnteredIsQuiet(n, s', 0);
  }

  /** One ticket of the order: visited unless an earlier visit has reached it. */
  function VisitedOnce(n: Graph, s: Trail, node: Key): Trail
    requires Closed(n)
  {
    if node in s.color || node !in n then s else Drained(n, Started(n, s, node))
  }

  lemma VisitKeepsSound(n: Graph, s: Trail, node: Key)
    requires Sound(n, s) && s.path == []
    ensures var s' := VisitedOnce(n, s, node);
            Sound(n, s') && s'.path == [] && s.color.Keys <= s'.color.Keys && (node in n ==> node in s'.color.Keys)
  {
    if node !in s.color && node in n {
      StartKeepsSound(n, s, node);
      DrainKeepsSound(n, Started(n, s, node));
    }
  }

  lemma {:induction false} SearchKeepsSound(n: Graph, s: Trail, order: seq<Key>)
    requires Sound(n, s) && s.path == []
    ensures var end := Searched(n, s, order);
            && Sound(n, end) && end.path == [] && s.color.Keys <= end.color.Keys
            && forall i | 0 <= i < |order| && order[i] in n :: order[i] in end.color.Keys
    decreases |order|
  {
    if order != [] {
      VisitKeepsSound(n, s, order[0]);
      SearchKeepsSound(n, VisitedOnce(n, s, order[0]), order[1..]);
      assert forall i | 1 <= i < |order| :: order[i] == order[1..][i - 1];
    }
  }

  // ---------- what the search returns ----------

  /** `order` lists the waiting tickets, as the map iterates them. */
  predicate Lists(order: seq<Key>, edges: Graph) {
    && (forall k | k in order :: k in edges)
    && (forall k | k in edges :: k in order)
  }

  /** In this search `x` was finished before `k` was entered. */
  predicate FinishedBefore(end: Trail, x: Key, k: Key) {
    x in end.rank && k in end.since && end.rank[x] < end.since[k]
  }

  /** A cycle through `k` that met nothing finished as the search entered `k`. */
  ghost predicate CycleOpenAtEntry(edges: Graph, end: Trail, k: Key) {
    exists p :: IsCycle(edges, p) && k in p && forall i | 0 <= i < |p| :: !FinishedBefore(end, p[i], k)
  }

  lemma SearchEnds(edges: Graph, order: seq<Key>)
    requires Lists(order, edges)
    ensures var n, end := Restricted(edges), Search(edges, order);
            && Sound(n, end) && end.path == [] && end.since.Keys == end.rank.Keys == edges.Keys && end.marked <= edges.Keys
  {
    var n, end := Restricted(edges), Search(edges, order);
    RestrictedIsClosed(edges);
    assert Sound(n, FRESH);
    SearchKeepsSound(n, FRESH, order);
    forall k | k in edges
      ensures k in end.color.Keys
    {
      assert k in order;
    }
    AllAreFinished(n, end);
  }

  lemma AllAreFinished(n: Graph, end: Trail)
    requires Shape(n, end) && Numbered(n, end) && end.path == [] && n.Keys <= end.color.Keys
    ensures end.since.Keys == end.rank.Keys == n.Keys && end.marked <= n.Keys
  {
    forall k | k in end.color
      ensures k in n && k in end.rank
    {
      assert end.color[k] != Gray;
    }
  }

  /**
   * Exactly the tickets returned, for every graph and every order: those on a cycle that was still
   * open, none of its tickets finished, when the search entered them.
   */
  lemma ReturnedIff(edges: Graph, order: seq<Key>, k: Key)
    requires Lists(order, edges)
    ensures k in Search(edges, order).marked <==> CycleOpenAtEntry(edges, Search(edges, order), k)
  {
    var n, end := Restricted(edges), Search(edges, order);
    SearchEnds(edges, order);
    forall p
      ensures IsCycle(n, p) <==> IsCycle(edges, p)
    {
      SameCycles(edges, p);
    }
    if k in end.marked {
      assert Verdict(n, end, k);
      var p :| IsCycle(n, p) && k in p && Within(p, end.marked) && !MeetsFinished(p, end.rank, end.since[k]);
      assert IsCycle(edges, p) && forall i | 0 <= i < |p| :: !FinishedBefore(end, p[i], k);
    } else {
      forall p | IsCycle(edges, p) && k in p
        ensures exists i | 0 <= i < |p| :: FinishedBefore(end, p[i], k)
      {
        CycleNodesAreWaiting(edges, p, k);
        assert Verdict(n, end, k) && IsCycle(n, p);
        var i :| 0 <= i < |p| && p[i] in end.rank && end.rank[p[i]] < end.since[k];
        assert FinishedBefore(end, p[i], k);
      }
    }
  }

  /** What is returned is a union of whole cycles. */
  lemma ReturnedAreWholeCycles(edges: Graph, order: seq<Key>)
    requires Lists(order, edges)
    ensures WholeCycles(edges, Search(edges, order).marked)
  {
    var n, end := Restricted(edges), Search(edges, order);
    SearchEnds(edges, order);
    forall k | k in end.marked
      ensures OnCycleWithin(edges, k, end.marked)
    {
      assert Verdict(n, end, k);
      var p :| IsCycle(n, p) && k in p && Within(p, end.marked) && !MeetsFinished(p, end.rank, end.since[k]);
      SameCycles(edges, p);
    }
  }

  /** Of the positions below `m` of a cycle, one whose ticket was entered first. */
  lemma {:induction false} FirstEntered(p: seq<Key>, since: map<Key, nat>, m: nat) returns (first: nat)
    requires 0 < m <= |p| && forall i | 0 <= i < |p| :: p[i] in since
    ensures first < m && forall i | 0 <= i < m :: since[p[first]] <= since[p[i]]
  {
    first := 0;
    if m > 1 {
      first := FirstEntered(p, since, m - 1);
      if since[p[m - 1]] < since[p[first]] {
        first := m - 1;
      }
    }
  }

  /** Of every cycle the ticket entered first is returned: nothing on the cycle can have been finished by then. */
  lemma ReturnedBreakAllCycles(edges: Graph, order: seq<Key>)
    requires Lists(order, edges)
    ensures Breaks(edges, Search(edges, order).marked)
  {
    var n, end := Restricted(edges), Search(edges, order);
    SearchEnds(edges, order);
    forall p | IsCycle(edges, p)
      ensures Touches(p, end.marked)
    {
      forall i | 0 <= i < |p|
        ensures p[i] in end.since
      {
        CycleNodesAreWaiting(edges, p, p[i]);
      }
      var first := FirstEntered(p, end.since, |p|);
      forall i | 0 <= i < |p|
        ensures !FinishedBefore(end, p[i], p[first])
      {
        assert end.since[p[i]] <= end.rank[p[i]];
      }
      assert CycleOpenAtEntry(edges, end, p[first]);
      ReturnedIff(edges, order, p[first]);
    }
  }

  /**
   * Every ticket on a cycle is returned, by this search, exactly when each of them had an open cycle
   * as it was entered.
   */
  lemma CompleteIff(edges: Graph, order: seq<Key>)
    requires Lists(order, edges)
    ensures (forall k | OnCycle(edges, k) :: k in Search(edges, order).marked)
            <==> (forall k | OnCycle(edges, k) :: CycleOpenAtEntry(edges, Search(edges, order), k))
  {
    forall k
      ensures k in Search(edges, order).marked <==> CycleOpenAtEntry(edges, Search(edges, order), k)
    {
      ReturnedIff(edges, order, k);
    }
  }

  /** Whatever the order, a ticket with a hub cycle is returned: nothing it blocks is finished before it is entered. */
  lemma HubIsReturned(edges: Graph, order: seq<Key>, k: Key)
    requires Lists(order, edges) && HasHubCycle(edges, k)
    ensures k in Search(edges, order).marked
  {
    var n, end := Restricted(edges), Search(edges, order);
    SearchEnds(edges, order);
    RestrictedIsClosed(edges);
    var p :| IsCycle(edges, p) && k in p && AroundHub(edges, p, k);
    CycleNodesAreWaiting(edges, p, k);
    forall i | 0 <= i < |p|
      ensures !FinishedBefore(end, p[i], k)
    {
      CycleNodesAreWaiting(edges, p, p[i]);
      assert p[i] == k || Edge(n, p[i], k);
    }
    assert CycleOpenAtEntry(edges, end, k);
    ReturnedIff(edges, order, k);
  }

  /**
   * Whatever the order: where every ticket on a cycle has a hub cycle or a private one, exactly the tickets on
   * cycles are returned.
   */
  lemma HubAndPrivateCyclesAreReturned(edges: Graph, order: seq<Key>)
    requires Lists(order, edges) && forall k | OnCycle(edges, k) :: HasHubCycle(edges, k) || HasPrivateCycle(edges, k)
    ensures forall k :: k in Search(edges, order).marked <==> OnCycle(edges, k)
  {
    var marked := Search(edges, order).marked;
    ReturnedAreWholeCycles(edges, order);
    ReturnedBreakAllCycles(edges, order);
    forall k
      ensures k in marked <==> OnCycle(edges, k)
    {
      if k in marked {
        assert OnCycleWithin(edges, k, marked);
      } else if OnCycle(edges, k) {
        if HasHubCycle(edges, k) {
          HubIsReturned(edges, order, k);
        } else {
          PrivateIsReturned(edges, k, marked);
        }
      }
    }
  }

  /** In particular where tickets only ever block each other. */
  lemma SymmetricBlockersAreComplete(edges: Graph, order: seq<Key>)
    requires Lists(order, edges) && Symmetric(edges)
    ensures forall k :: k in Search(edges, order).marked <==> OnCycle(edges, k)
  {
    forall k | OnCycle(edges, k)
      ensures HasHubCycle(edges, k)
    {
      var w := CycleNodeHasASuccessor(edges, k);
      MutualBlockersHaveHubCycles(edges, k, w);
    }
    HubAndPrivateCyclesAreReturned(edges, order);
  }

  /** And where no ticket has two waiting blockers. */
  lemma SingleBlockersAreComplete(edges: Graph, order: seq<Key>)
    requires Lists(order, edges) && OneBlockerEach(edges)
    ensures forall k :: k in Search(edges, order).marked <==> OnCycle(edges, k)
  {
    forall k | OnCycle(edges, k)
      ensures HasPrivateCycle(edges, k)
    {
      OneBlockerMakesCyclesPrivate(edges, k);
    }
    HubAndPrivateCyclesAreReturned(edges, order);
  }

  /**
   * A ticket on a cycle that is missed: with A blocked by C and B, B by A and C by B, the list of A
   * is read from its end, so B is finished before C is entered.
   */
  lemma ATicketOnACycleIsMissed(a: Key, b: Key, c: Key)
    requires a != b && b != c && a != c
    ensures var edges, order := map[a := [c, b], b := [a], c := [b]], [a, b, c];
            && Lists(order, edges) && OnCycle(edges, c)
            && Search(edges, order).marked == {a, b}
  {
    var edges, order := map[a := [c, b], b := [a], c := [b]], [a, b, c];
    assert IsCycle(edges, [a, c, b, a]) && c in [a, c, b, a];
    var n := Restricted(edges);
    RestrictedIsClosed(edges);
    RestrictOne(edges, a);
    RestrictOne(edges, b);
    assert [c, b][1..] == [b] && Restrict(edges, [c, b]) == [c] + Restrict(edges, [b]) == [c, b];
    assert n[a] == [c, b] && n[b] == [a] && n[c] == [b];
    assert n == edges;
    var s0 := Started(n, FRESH, a);
    MissedVisit(n, a, b, c);
    var s7 := Drained(n, s0);
    assert order[1..] == [b, c] && [b, c][1..] == [c] && [c][1..] == [];
    assert Searched(n, s7, [c]) == Searched(n, s7, []) == s7;
    assert Searched(n, s7, [b, c]) == Searched(n, s7, [c]);
    assert Searched(n, FRESH, order) == Searched(n, s7, [b, c]);
  }

  lemma RestrictOne(g: Graph, k: Key)
    requires k in g
    ensures Restrict(g, [k]) == [k]
  {
    assert [k][1..] == [];
  }

  lemma DrainedTurn(n: Graph, s: Trail, s': Trail)
    requires Closed(n) && AllReading(n, s.path) && s.path != [] && s' == Turn(n, s)
    ensures Drained(n, s) == Drained(n, s')
  {
  }

  /** The visit from A, turn by turn: first B, closing the cycle back to A ... */
  lemma MissedVisitFirst(n: Graph, a: Key, b: Key, c: Key)
    requires a != b && b != c && a != c && n == map[a := [c, b], b := [a], c := [b]] && Closed(n)
    ensures Drained(n, Started(n, FRESH, a)) ==
            Drained(n, Trail(map[a := Gray, b := Black], [a], [Frame(a, [c])], {a, b}, map[b := 0], 1, map[a := 0, b := 0]))
  {
    var s0 := Started(n, FRESH, a);
    assert s0.path == [Frame(a, [c, b])] && s0.stack == [a];
    var s1 := Trail(map[a := Gray, b := Gray], [a, b], [Frame(a, [c]), Frame(b, [a])], {}, map[], 0, map[a := 0, b := 0]);
    assert Turn(n, s0) == s1 by { assert [c, b][..1] == [c]; }
    var s2 := s1.(path := [Frame(a, [c]), Frame(b, [])], marked := {a, b});
    assert Turn(n, s1) == s2 by { WholeStack(a, b); }
    var s3 := Trail(map[a := Gray, b := Black], [a], [Frame(a, [c])], {a, b}, map[b := 0], 1, map[a := 0, b := 0]);
    assert Turn(n, s2) == s3;
    DrainedTurn(n, s0, s1);
    DrainedTurn(n, s1, s2);
    DrainedTurn(n, s2, s3);
  }

  /** ... then C, which finds B finished. */
  lemma MissedVisit(n: Graph, a: Key, b: Key, c: Key)
    requires a != b && b != c && a != c && n == map[a := [c, b], b := [a], c := [b]] && Closed(n)
    ensures var end := Drained(n, Started(n, FRESH, a)); end.marked == {a, b} && end.color.Keys == {a, b, c}
  {
    MissedVisitFirst(n, a, b, c);
    var s3 := Trail(map[a := Gray, b := Black], [a], [Frame(a, [c])], {a, b}, map[b := 0], 1, map[a := 0, b := 0]);
    var s4 := Trail(map[a := Gray, b := Black, c := Gray], [a, c], [Frame(a, []), Frame(c, [b])], {a, b}, map[b := 0], 1, map[a := 0, b := 0, c := 1]);
    assert Turn(n, s3) == s4;
    var s5 := s4.(path := [Frame(a, []), Frame(c, [])]);
    assert Turn(n, s4) == s5;
    var s6 := Trail(map[a := Gray, b := Black, c := Black], [a], [Frame(a, [])], {a, b}, map[b := 0, c := 1], 2, map[a := 0, b := 0, c := 1]);
    assert Turn(n, s5) == s6;
    var s7 := Trail(map[a := Black, b := Black, c := Black], [], [], {a, b}, map[b := 0, c := 1, a := 2], 3, map[a := 0, b := 0, c := 1]);
    assert Turn(n, s6) == s7;
    DrainedTurn(n, s3, s4);
    DrainedTurn(n, s4, s5);
    DrainedTurn(n, s5, s6);
    DrainedTurn(n, s6, s7);
  }

  lemma WholeStack(a: Key, b: Key)
    ensures From([a, b], IndexOf([a, b], a)) == {a, b}
  {
    var stack := [a, b];
    assert stack[0] == a && stack[1] == b;
    assert a in From(stack, 0) && b in From(stack, 0);
  }

  // ---------- the search in place ----------

  class DepthFirst {
    const edges: Graph
    ghost const n: Graph
    var inCycle: set<Key>
    var color: map<Key, Color>
    var stack: seq<Key>
    ghost var rank: map<Key, nat>
    ghost var clock: nat
    ghost var since: map<Key, nat>

    constructor (edges: Graph)
      ensures this.edges == edges && n == Restricted(edges) && Now([]) == FRESH && Sound(n, FRESH)
    {
      this.edges := edges;
      n := Restricted(edges);
      inCycle, color, stack, rank, clock, since := {}, map[], [], map[], 0, map[];
      new;
      RestrictedIsClosed(edges);
    }

    ghost function Now(path: seq<Frame>): Trail
      reads this
    {
      Trail(color, stack, path, inCycle, rank, clock, since)
    }

    ghost predicate Valid(path: seq<Frame>)
      reads this
    {
      n == Restricted(edges) && Sound(n, Now(path))
    }

    /** Everything from `next` to the top of the stack is on a cycle. */
    method MarkFrom(next: Key)
      requires next in stack
      modifies this`inCycle
      ensures inCycle == old(inCycle) + From(stack, IndexOf(stack, next))
    {
      var i := 0;
      while stack[i] != next
        invariant 0 <= i < |stack| && next in stack[i..] && IndexOf(stack, next) == i + IndexOf(stack[i..], next)
        decreases |stack| - i
      {
        assert stack[i..][1..] == stack[i + 1..];
        i := i + 1;
      }
      assert IndexOf(stack[i..], next) == 0;
      ghost var lo := i;
      while i < |stack|
        invariant lo <= i <= |stack|
        invariant inCycle == old(inCycle) + set j | lo <= j < i :: stack[j]
      {
        inCycle := inCycle + {stack[i]};
        i := i + 1;
      }
    }

    /** One turn of the search loop. */
    method Step(path: seq<Frame>) returns (path': seq<Frame>)
      requires Valid(path) && path != []
      modifies this
      ensures Valid(path') && Now(path') == Turn(n, old(Now(path)))
    {
      TurnKeepsSound(n, Now(path));
      path' := TakeTurn(path);
    }

    method TakeTurn(path: seq<Frame>) returns (path': seq<Frame>)
      requires n == Restricted(edges) && Closed(n) && AllReading(n, path) && path != []
      requires forall k | k in color && color[k].Gray? :: k in stack
      modifies this
      ensures Now(path') == Turn(n, old(Now(path)))
    {
      var frame := path[|path| - 1];
      assert Reading(n, frame);
      if frame.nexts == [] {
        rank, clock := rank[frame.node := clock], clock + 1;
        color := color[frame.node := Black];
        stack := if stack == [] then [] else stack[..|stack| - 1];
        path' := path[..|path| - 1];
        return;
      }
      NextIsWaiting(n, frame);
      var next := LastNext(frame);
      path' := path[|path| - 1 := Popped(frame)];
      if next !in color {
        color := color[next := Gray];
        stack := stack + [next];
        since := since[next := clock];
        path' := path' + [Frame(next, Restrict(edges, edges[next]))];
      } else if color[next] == Gray {
        MarkFrom(next);
      }
    }

    method Visit(start: Key)
      requires Valid([]) && start in edges && start !in color
      modifies this
      ensures Valid([]) && Now([]) == Drained(n, Started(n, old(Now([])), start))
    {
      StartKeepsSound(n, Now([]), start);
      ghost var entry := Started(n, Now([]), start);
      var path := [Frame(start, Restrict(edges, edges[start]))];
      color := color[start := Gray];
      stack := [start];
      since := since[start := clock];
      while |path| > 0
        invariant Valid(path) && Drained(n, Now(path)) == Drained(n, entry)
        decreases n.Keys - color.Keys, |path|, Unread(path)
      {
        TurnProgresses(n, Now(path));
        path := Step(path);
      }
    }

    /** Visit every waiting ticket that no earlier visit has reached. */
    method Run(order: seq<Key>)
      requires Valid([]) && forall k | k in order :: k in edges
      modifies this
      ensures Valid([]) && Now([]) == Searched(n, old(Now([])), order)
    {
      var i := 0;
      while i < |order|
        invariant 0 <= i <= |order| && Valid([])
        invariant Searched(n, Now([]), order[i..]) == Searched(n, old(Now([])), order)
      {
        assert order[i] in order && order[i..][1..] == order[i + 1..];
        if order[i] !in color {
          Visit(order[i]);
        }
        i := i + 1;
      }
    }
  }

  /**
   * The tickets to classify as `cycle`: exactly those of the search, a union of whole cycles that
   * breaks every cycle, empty exactly when there is none.
   */
  method FindCycleTickets(edges: Graph, order: seq<Key>) returns (inCycle: set<Key>)
    requires Lists(order, edges)
    ensures inCycle == Search(edges, order).marked
    ensures WholeCycles(edges, inCycle) && Breaks(edges, inCycle)
    ensures inCycle == {} <==> Acyclic(edges)
  {
    var search := new DepthFirst(edges);
    search.Run(order);
    inCycle := search.inCycle;
    ReturnedAreWholeCycles(edges, order);
    ReturnedBreakAllCycles(edges, order);
    EmptyIffAcyclic(edges, inCycle);
  }
}
