/** The canonical release order: priority ascending with unprioritized tickets last, then key. */
module ReleaseOrder {
  import opened Text
  import opened Wrappers

  datatype OrderKey = OrderKey(priority: Option<int>, key: Key)

  function Compare(a: OrderKey, b: OrderKey): int {
    if a.priority != b.priority then
      if a.priority == None then 1
      else if b.priority == None then -1
      else a.priority.value - b.priority.value
    else if LexLess(a.key.name, b.key.name) then -1
    else if LexLess(b.key.name, a.key.name) then 1
    else 0
  }

  /** `a` may stand before `b`. */
  predicate Before(a: OrderKey, b: OrderKey) {
    Compare(a, b) <= 0
  }

  /** The comparator is a consistent total order, so the release order is determined by the tickets alone. */
  lemma CompareIsATotalOrder(a: OrderKey, b: OrderKey)
    ensures Compare(a, b) < 0 <==> Compare(b, a) > 0
    ensures Compare(a, b) == 0 <==> a == b
  {
    LexLessIsTotal(a.key.name, b.key.name);
  }

  /** Which order it is: prioritized tickets first, the smaller priority id first, and the smaller key first among equals. */
  lemma BeforeMeans(a: OrderKey, b: OrderKey)
    ensures Before(a, b) <==>
            || (a.priority.Some? && b.priority.None?)
            || (a.priority.Some? && b.priority.Some? && a.priority.value < b.priority.value)
            || (a.priority == b.priority && (a.key == b.key || LexLess(a.key.name, b.key.name)))
  {
    LexLessIsTotal(a.key.name, b.key.name);
  }

  lemma BeforeTransitive(a: OrderKey, b: OrderKey, c: OrderKey)
    requires Before(a, b) && Before(b, c)
    ensures Before(a, c)
  {
    LexLessIsTotal(a.key.name, b.key.name);
    LexLessIsTotal(b.key.name, c.key.name);
    LexLessIsTotal(a.key.name, c.key.name);
    if LexLess(a.key.name, b.key.name) && LexLess(b.key.name, c.key.name) {
      LexLessTransitive(a.key.name, b.key.name, c.key.name);
    }
  }

  ghost predicate Sorted<T(!new)>(rows: seq<T>, rank: T -> OrderKey) {
    forall i, j | 0 <= i < j < |rows| :: Before(rank(rows[i]), rank(rows[j]))
  }

  /** Stable insertion: before the first row that may not precede the new one. */
  function Insert<T>(row: T, rows: seq<T>, rank: T -> OrderKey): seq<T> {
    if rows == [] then [row]
    else if Before(rank(row), rank(rows[0])) then [row] + rows
    else [rows[0]] + Insert(row, rows[1..], rank)
  }

  function Sort<T>(rows: seq<T>, rank: T -> OrderKey): seq<T> {
    if rows == [] then [] else Insert(rows[0], Sort(rows[1..], rank), rank)
  }

  lemma {:induction false} InsertKeepsOrder<T(!new)>(row: T, rows: seq<T>, rank: T -> OrderKey)
    requires Sorted(rows, rank)
    ensures Sorted(Insert(row, rows, rank), rank)
    ensures multiset(Insert(row, rows, rank)) == multiset(rows) + multiset{row}
  {
    if rows == [] {
    } else if Before(rank(row), rank(rows[0])) {
      forall j | 0 <= j < |rows|
        ensures Before(rank(row), rank(rows[j]))
      {
        if j > 0 {
          BeforeTransitive(rank(row), rank(rows[0]), rank(rows[j]));
        }
      }
    } else {
      var rest := Insert(row, rows[1..], rank);
      InsertKeepsOrder(row, rows[1..], rank);
      CompareIsATotalOrder(rank(row), rank(rows[0]));
      assert rows == [rows[0]] + rows[1..];
      forall j | 0 <= j < |rest|
        ensures Before(rank(rows[0]), rank(rest[j]))
      {
        assert rest[j] in multiset(rest);
        if rest[j] != row {
          assert rest[j] in multiset(rows[1..]);
          var k :| 0 <= k < |rows[1..]| && rows[1..][k] == rest[j];
          assert rows[k + 1] == rest[j];
        }
      }
    }
  }

  /** The release order is a sorted permutation of the candidates. */
  lemma {:induction false} SortIsASortedPermutation<T(!new)>(rows: seq<T>, rank: T -> OrderKey)
    ensures Sorted(Sort(rows, rank), rank)
    ensures multiset(Sort(rows, rank)) == multiset(rows)
  {
    if rows != [] {
      SortIsASortedPermutation(rows[1..], rank);
      InsertKeepsOrder(rows[0], Sort(rows[1..], rank), rank);
      assert rows == [rows[0]] + rows[1..];
    }
  }

  /** The rows that share the rank `k`, in their order. */
  function Ties<T>(rows: seq<T>, rank: T -> OrderKey, k: OrderKey): seq<T> {
    if rows == [] then [] else (if rank(rows[0]) == k then [rows[0]] else []) + Ties(rows[1..], rank, k)
  }

  lemma TiesOfCons<T>(row: T, rows: seq<T>, rank: T -> OrderKey, k: OrderKey)
    ensures Ties([row] + rows, rank, k) == (if rank(row) == k then [row] else []) + Ties(rows, rank, k)
  {
    assert ([row] + rows)[1..] == rows;
  }

  lemma {:induction false} InsertIsStable<T>(row: T, rows: seq<T>, rank: T -> OrderKey, k: OrderKey)
    ensures Ties(Insert(row, rows, rank), rank, k) == (if rank(row) == k then [row] else []) + Ties(rows, rank, k)
  {
    if rows != [] && !Before(rank(row), rank(rows[0])) {
      var rest := Insert(row, rows[1..], rank);
      InsertIsStable(row, rows[1..], rank, k);
      TiesOfCons(rows[0], rest, rank, k);
      CompareIsATotalOrder(rank(row), rank(rows[0]));
    } else {
      TiesOfCons(row, rows, rank, k);
      assert Insert(row, rows, rank) == [row] + rows;
    }
  }

  /** Rows of equal rank, one per agent of a ticket, keep the order they came in. */
  lemma {:induction false} SortIsStable<T>(rows: seq<T>, rank: T -> OrderKey, k: OrderKey)
    ensures Ties(Sort(rows, rank), rank, k) == Ties(rows, rank, k)
  {
    if rows != [] {
      SortIsStable(rows[1..], rank, k);
      InsertIsStable(rows[0], Sort(rows[1..], rank), rank, k);
    }
  }
}
