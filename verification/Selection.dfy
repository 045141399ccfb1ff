/** scripts/prepare_paper_data.py `select_rows`: the rows with the smallest priorities,
    kept in one bounded heap per group. A heap is the list of its items in the order in
    which they would be popped. */
module Selection {
  import opened Basics

  datatype Row = Row(id: nat, priority: nat, group: nat)

  /** `(-priority, id)`: the row to give up first. */
  predicate Worse(x: Row, y: Row) {
    x.priority > y.priority || (x.priority == y.priority && x.id < y.id)
  }

  function Push(heap: seq<Row>, row: Row): seq<Row> {
    if heap == [] || Worse(row, heap[0]) then [row] + heap
    else [heap[0]] + Push(heap[1..], row)
  }

  /** One row offered to a heap of at most `n`. */
  function Offer(heap: seq<Row>, n: nat, row: Row): seq<Row> {
    if |heap| < n then Push(heap, row)
    else if heap != [] && row.priority < heap[0].priority then Push(heap[1..], row)
    else heap
  }

  function Kept(rows: seq<Row>, n: nat): seq<Row> {
    if rows == [] then [] else Offer(Kept(rows[..|rows| - 1], n), n, rows[|rows| - 1])
  }

  /** `(priority, id)`: the order of the result. */
  predicate Before(x: Row, y: Row) {
    x.priority < y.priority || (x.priority == y.priority && x.id < y.id)
  }

  function Insert(s: seq<Row>, row: Row): (r: seq<Row>)
    ensures |r| == |s| + 1
  {
    if s == [] || Before(row, s[0]) then [row] + s else [s[0]] + Insert(s[1..], row)
  }

  /** `sorted(rows, key=(priority, id))` */
  function Sort(rows: seq<Row>): (r: seq<Row>)
    ensures |r| == |rows|
  {
    if rows == [] then [] else Insert(Sort(rows[1..]), rows[0])
  }

  function Rows(s: seq<Row>): set<Row> {
    set x | x in s
  }

  function Selected(rows: seq<Row>, n: nat): seq<Row> {
    Sort(Kept(rows, n))
  }

  // ---- heaps ---------------------------------------------------------------------------

  ghost predicate Heap(h: seq<Row>) {
    forall i, j :: 0 <= i < |h| && i < j < |h| ==> Worse(h[i], h[j])
  }

  /** No two rows share an id. */
  ghost predicate Apart(s: set<Row>) {
    forall x, y :: x in s && y in s && x.id == y.id ==> x == y
  }

  lemma {:induction false} PushHeap(h: seq<Row>, row: Row)
    requires Heap(h) && row !in h && Apart(Rows(h) + {row})
    ensures Heap(Push(h, row)) && Rows(Push(h, row)) == Rows(h) + {row} && |Push(h, row)| == |h| + 1
  {
    if h != [] && !Worse(row, h[0]) {
      assert Rows(h) == {h[0]} + Rows(h[1..]);
      PushHeap(h[1..], row);
      var rest := Push(h[1..], row);
      assert Worse(h[0], row) by { assert h[0] in Rows(h) && h[0] != row; }
      forall j | 0 <= j < |rest| ensures Worse(h[0], rest[j]) {
        assert rest[j] in Rows(rest);
        if rest[j] != row {
          var i :| 0 <= i < |h[1..]| && h[1..][i] == rest[j];
          assert Worse(h[0], h[i + 1]);
        }
      }
    }
  }

  lemma {:induction false} CountRows(h: seq<Row>)
    requires forall i, j :: 0 <= i < |h| && i < j < |h| ==> h[i] != h[j]
    ensures |Rows(h)| == |h|
  {
    if h == [] {
      assert Rows(h) == {};
    } else {
      CountRows(h[1..]);
      assert Rows(h) == {h[0]} + Rows(h[1..]) && h[0] !in h[1..];
    }
  }

  lemma HeapCounts(h: seq<Row>)
    requires Heap(h)
    ensures |Rows(h)| == |h|
  {
    CountRows(h);
  }

  // ---- the kept rows are smallest -----------------------------------------------------------

  /** `n` rows, or all, none of them behind one left out. */
  ghost predicate Smallest(chosen: set<Row>, all: set<Row>, n: nat) {
    && chosen <= all && |chosen| == (if n < |all| then n else |all|)
    && forall x, y :: x in chosen && y in all && y !in chosen ==> x.priority <= y.priority
  }

  lemma Subset(a: set<Row>, b: set<Row>)
    requires a <= b
    ensures |a| <= |b| && (|a| == |b| ==> a == b)
  {
    assert b == a + (b - a);
  }

  lemma WorstIsFirst(h: seq<Row>, x: Row)
    requires Heap(h) && x in h
    ensures x.priority <= h[0].priority
  {}

  lemma OfferKeeps(h: seq<Row>, all: set<Row>, n: nat, row: Row)
    requires Heap(h) && Smallest(Rows(h), all, n) && row !in all && Apart(all + {row}) && n > 0
    ensures Heap(Offer(h, n, row)) && Smallest(Rows(Offer(h, n, row)), all + {row}, n)
  {
    HeapCounts(h);
    if |h| < n {
      Subset(Rows(h), all);
      PushHeap(h, row);
    } else {
      assert h[0] in Rows(h);
      forall x | x in Rows(h) ensures x.priority <= h[0].priority { WorstIsFirst(h, x); }
      if row.priority < h[0].priority {
        assert Rows(h) == {h[0]} + Rows(h[1..]);
        HeapCounts(h[1..]);
        PushHeap(h[1..], row);
        HeapCounts(Push(h[1..], row));
      }
    }
  }

  /** When a better row comes to a full heap, the row that leaves has the largest priority, and of
      those with that priority the smallest id. */
  lemma WorstLeaves(h: seq<Row>, n: nat, row: Row) returns (out: Row)
    requires Heap(h) && |h| == n > 0 && row !in h && Apart(Rows(h) + {row})
    requires exists x :: x in h && row.priority < x.priority
    ensures out in h && Rows(Offer(h, n, row)) == Rows(h) - {out} + {row}
    ensures forall y :: y in h ==> y.priority <= out.priority && (y.priority == out.priority ==> out.id <= y.id)
  {
    out := h[0];
    var x :| x in h && row.priority < x.priority;
    WorstIsFirst(h, x);
    HeapTail(h);
    PushHeap(h[1..], row);
    forall y | y in h ensures y.priority <= out.priority && (y.priority == out.priority ==> out.id <= y.id) {
      WorstIsFirst(h, y);
      var i :| 0 <= i < |h| && h[i] == y;
    }
  }

  lemma HeapTail(h: seq<Row>)
    requires Heap(h) && h != []
    ensures Heap(h[1..]) && Rows(h[1..]) == Rows(h) - {h[0]}
  {
    assert Rows(h) == {h[0]} + Rows(h[1..]);
    forall i | 0 <= i < |h[1..]| ensures h[1..][i] != h[0] { assert Worse(h[0], h[i + 1]); }
  }

  ghost predicate DistinctIds(rows: seq<Row>) {
    forall i, j :: 0 <= i < |rows| && i < j < |rows| ==> rows[i].id != rows[j].id
  }

  lemma IdsApart(rows: seq<Row>)
    requires DistinctIds(rows)
    ensures Apart(Rows(rows)) && |Rows(rows)| == |rows|
  {
    CountRows(rows);
  }

  lemma Extend(rows: seq<Row>)
    requires DistinctIds(rows) && rows != []
    ensures var init, last := rows[..|rows| - 1], rows[|rows| - 1];
            DistinctIds(init) && Rows(rows) == Rows(init) + {last} && last !in Rows(init)
  {
    assert rows == rows[..|rows| - 1] + [rows[|rows| - 1]];
  }

  /** Whatever the order of the rows, the heap ends with smallest ones. */
  lemma {:induction false} KeptAreSmallest(rows: seq<Row>, n: nat)
    requires DistinctIds(rows) && n > 0
    ensures Heap(Kept(rows, n)) && Smallest(Rows(Kept(rows, n)), Rows(rows), n)
  {
    if rows == [] {
      assert Rows(rows) == {} && Rows(Kept(rows, n)) == {};
    } else {
      Extend(rows);
      IdsApart(rows);
      KeptAreSmallest(rows[..|rows| - 1], n);
      OfferKeeps(Kept(rows[..|rows| - 1], n), Rows(rows[..|rows| - 1]), n, rows[|rows| - 1]);
    }
  }

  // ---- when the order of the rows matters --------------------------------------------------

  function Lower(all: set<Row>, p: nat): set<Row> {
    set x | x in all && x.priority < p
  }

  function AtMost(all: set<Row>, p: nat): set<Row> {
    set x | x in all && x.priority <= p
  }

  /** Equal priorities on both sides of the boundary at `n`. */
  ghost predicate Tie(all: set<Row>, n: nat) {
    exists x :: x in all && |Lower(all, x.priority)| < n < |AtMost(all, x.priority)|
  }

  lemma TieFrom(a: set<Row>, b: set<Row>, all: set<Row>, n: nat, x: Row, y: Row)
    requires Smallest(a, all, n) && Smallest(b, all, n) && x in a && x !in b && y in b && y !in a
    ensures Tie(all, n)
  {
    assert x.priority == y.priority;
    assert Lower(all, x.priority) <= a - {x};
    Subset(Lower(all, x.priority), a - {x});
    assert a + {y} <= AtMost(all, x.priority);
    Subset(a + {y}, AtMost(all, x.priority));
    Subset(a, all);
  }

  lemma OnlyOneSmallest(a: set<Row>, b: set<Row>, all: set<Row>, n: nat)
    requires Smallest(a, all, n) && Smallest(b, all, n) && !Tie(all, n)
    ensures a == b
  {
    if a != b {
      if a <= b { Subset(a, b); } else if b <= a { Subset(b, a); }
      var x :| x in a && x !in b;
      var y :| y in b && y !in a;
      TieFrom(a, b, all, n, x, y);
    }
  }

  /** Across a tie one kept row can be exchanged for one left out. */
  lemma Exchange(kept: set<Row>, all: set<Row>, n: nat) returns (u: Row, v: Row)
    requires Smallest(kept, all, n) && Tie(all, n)
    ensures u in kept && v in all && v !in kept && u.priority == v.priority
    ensures |kept| == n
  {
    var x :| x in all && |Lower(all, x.priority)| < n < |AtMost(all, x.priority)|;
    var p := x.priority;
    Subset(AtMost(all, p), all);
    if AtMost(all, p) <= kept { Subset(AtMost(all, p), kept); assert false; }
    v :| v in AtMost(all, p) && v !in kept;
    if kept <= Lower(all, p) { Subset(kept, Lower(all, p)); assert false; }
    u :| u in kept && u !in Lower(all, p);
    assert u.priority <= v.priority <= p <= u.priority;
  }

  function Listed(s: set<Row>): (r: seq<Row>)
    requires Apart(s)
    ensures Rows(r) == s && |r| == |s| && DistinctIds(r)
  {
    if s == {} then []
    else
      var x := Lowest(s);
      var r := Listed(s - {x});
      assert forall y :: y in r <==> y in s - {x};
      [x] + r
  }

  function Lowest(s: set<Row>): (x: Row)
    requires s != {} && Apart(s)
    ensures x in s
  {
    var ids := set x | x in s :: x.id;
    assert ids != {} by {
      var y :| y in s;
      assert y.id in ids;
    }
    var x :| x in s && x.id == Least(ids);
    x
  }

  lemma {:induction false} KeptAll(rows: seq<Row>, n: nat)
    requires DistinctIds(rows) && |rows| <= n && n > 0
    ensures Rows(Kept(rows, n)) == Rows(rows) && |Kept(rows, n)| == |rows|
  {
    KeptAreSmallest(rows, n);
    IdsApart(rows);
    HeapCounts(Kept(rows, n));
    Subset(Rows(Kept(rows, n)), Rows(rows));
  }

  /** Rows no better than what a full heap holds leave it alone. */
  lemma {:induction false} LaterRowsStayOut(a: seq<Row>, b: seq<Row>, n: nat, p: nat)
    requires DistinctIds(a) && |a| == n > 0
    requires (forall x :: x in a ==> x.priority <= p) && forall y :: y in b ==> y.priority >= p
    ensures Kept(a + b, n) == Kept(a, n)
  {
    if b == [] {
      assert a + b == a;
    } else {
      var c := a + b;
      assert c[..|c| - 1] == a + b[..|b| - 1] && c[|c| - 1] == b[|b| - 1];
      assert forall y :: y in b[..|b| - 1] ==> y in b;
      LaterRowsStayOut(a, b[..|b| - 1], n, p);
      KeptAll(a, n);
      assert Kept(a, n)[0] in Rows(Kept(a, n));
      assert b[|b| - 1] in b;
    }
  }

  /** A permutation, as the same rows without repetition. */
  ghost predicate Permutes(rows: seq<Row>, others: seq<Row>) {
    DistinctIds(others) && |others| == |rows| && Rows(others) == Rows(rows)
  }

  /** Any `n` rows can be made to stay if no other is better. */
  lemma Reordered(first: set<Row>, rest: set<Row>, n: nat, p: nat) returns (others: seq<Row>)
    requires Apart(first + rest) && first !! rest && |first| == n > 0
    requires (forall x :: x in first ==> x.priority <= p) && forall y :: y in rest ==> y.priority >= p
    ensures DistinctIds(others) && Rows(others) == first + rest && |others| == |first + rest|
    ensures Rows(Kept(others, n)) == first
  {
    var a, b := Listed(first), Listed(rest);
    assert forall x :: x in a <==> x in Rows(a);
    assert forall y :: y in b <==> y in Rows(b);
    others := a + b;
    Joined(a, b, first + rest);
    LaterRowsStayOut(a, b, n, p);
    KeptAll(a, n);
  }

  lemma Swapped(kept: set<Row>, all: set<Row>, n: nat, u: Row, v: Row)
    requires Smallest(kept, all, n) && u in kept && v in all && v !in kept && u.priority == v.priority
    ensures var first := kept - {u} + {v};
            && first <= all && |first| == |kept|
            && (forall x :: x in first ==> x.priority <= u.priority)
            && (forall y :: y in all - first ==> y.priority >= u.priority)
  {}

  /** With a tie at the boundary another order of the same rows keeps other rows. */
  lemma OrderMatters(rows: seq<Row>, n: nat) returns (others: seq<Row>)
    requires DistinctIds(rows) && n > 0 && Tie(Rows(rows), n)
    ensures Permutes(rows, others) && Rows(Kept(others, n)) != Rows(Kept(rows, n))
  {
    var all, kept := Rows(rows), Rows(Kept(rows, n));
    IdsApart(rows);
    KeptAreSmallest(rows, n);
    var u, v := Exchange(kept, all, n);
    Swapped(kept, all, n, u, v);
    var first := kept - {u} + {v};
    var rest := all - first;
    assert first + rest == all;
    others := Reordered(first, rest, n, u.priority);
    assert u in kept && u !in first;
  }

  lemma Joined(a: seq<Row>, b: seq<Row>, all: set<Row>)
    requires Apart(all) && DistinctIds(a) && DistinctIds(b) && Rows(a) + Rows(b) == all && Rows(a) !! Rows(b)
    ensures DistinctIds(a + b) && Rows(a + b) == all && |a + b| == |all|
  {
    IdsApart(a);
    IdsApart(b);
    forall i, j | 0 <= i < |a + b| && i < j < |a + b| ensures (a + b)[i].id != (a + b)[j].id {
      if i < |a| && |a| <= j {
        assert a[i] in Rows(a) && b[j - |a|] in Rows(b);
      }
    }
  }

  // ---- the result --------------------------------------------------------------------------

  ghost predicate InOrder(s: seq<Row>) {
    forall i, j :: 0 <= i < |s| && i < j < |s| ==> Before(s[i], s[j])
  }

  lemma {:induction false} InsertOrders(s: seq<Row>, row: Row)
    requires InOrder(s) && row !in s && Apart(Rows(s) + {row})
    ensures InOrder(Insert(s, row)) && Rows(Insert(s, row)) == Rows(s) + {row} && |Insert(s, row)| == |s| + 1
  {
    if s != [] && !Before(row, s[0]) {
      assert Rows(s) == {s[0]} + Rows(s[1..]);
      InsertOrders(s[1..], row);
      var rest := Insert(s[1..], row);
      assert Before(s[0], row) by { assert s[0] in Rows(s) && s[0] != row; }
      forall j | 0 <= j < |rest| ensures Before(s[0], rest[j]) {
        assert rest[j] in Rows(rest);
        if rest[j] != row {
          var i :| 0 <= i < |s[1..]| && s[1..][i] == rest[j];
          assert Before(s[0], s[i + 1]);
        }
      }
    }
  }

  lemma {:induction false} SortOrders(s: seq<Row>)
    requires Apart(Rows(s)) && |Rows(s)| == |s|
    ensures InOrder(Sort(s)) && Rows(Sort(s)) == Rows(s) && |Sort(s)| == |s|
  {
    if s == [] {
    } else {
      assert Rows(s) == {s[0]} + Rows(s[1..]);
      CardTail(s);
      SortOrders(s[1..]);
      InsertOrders(Sort(s[1..]), s[0]);
    }
  }

  lemma CardTail(s: seq<Row>)
    requires s != [] && |Rows(s)| == |s|
    ensures |Rows(s[1..])| == |s[1..]| && s[0] !in s[1..]
  {
    assert Rows(s) == {s[0]} + Rows(s[1..]);
    assert s[0] in s[1..] ==> Rows(s) == Rows(s[1..]);
    CardAtMost(s[1..]);
  }

  lemma {:induction false} CardAtMost(s: seq<Row>)
    ensures |Rows(s)| <= |s|
  {
    if s == [] {
      assert Rows(s) == {};
    } else {
      CardAtMost(s[1..]);
      assert Rows(s) == {s[0]} + Rows(s[1..]);
    }
  }

  lemma NoRows(s: seq<Row>)
    ensures s == [] <==> Rows(s) == {}
  {
    if s != [] { assert s[0] in Rows(s); }
  }

  lemma {:induction false} OneOrder(s: seq<Row>, t: seq<Row>)
    requires InOrder(s) && InOrder(t) && Rows(s) == Rows(t)
    ensures s == t
  {
    NoRows(s);
    NoRows(t);
    if s != [] {
      assert s[0] in Rows(t) && t[0] in Rows(s);
      var i :| 0 <= i < |t| && t[i] == s[0];
      var j :| 0 <= j < |s| && s[j] == t[0];
      assert i == 0;
      DropFirst(s);
      DropFirst(t);
      OneOrder(s[1..], t[1..]);
    }
  }

  lemma DropFirst(s: seq<Row>)
    requires InOrder(s) && s != []
    ensures Rows(s[1..]) == Rows(s) - {s[0]}
  {
    forall x | x in s[1..] ensures x != s[0] && x in s {
      var i :| 1 <= i < |s| && s[i] == x;
      assert Before(s[0], s[i]);
    }
    assert forall x :: x in s <==> x == s[0] || x in s[1..];
  }

  /** The first `n` of rows in order are smallest. */
  lemma PrefixIsSmallest(sorted: seq<Row>, n: nat)
    requires InOrder(sorted) && n <= |sorted| == |Rows(sorted)|
    ensures Smallest(Rows(sorted[..n]), Rows(sorted), n) && InOrder(sorted[..n])
  {
    forall i, j | 0 <= i < n && i < j < n
      ensures sorted[..n][i] != sorted[..n][j]
    {
      assert Before(sorted[i], sorted[j]);
    }
    CountRows(sorted[..n]);
    forall x, y | x in Rows(sorted[..n]) && y in Rows(sorted) && y !in Rows(sorted[..n])
      ensures x.priority <= y.priority
    {
      var i :| 0 <= i < n && sorted[i] == x;
      assert sorted == sorted[..n] + sorted[n..];
      var j :| 0 <= j < |sorted[n..]| && sorted[n..][j] == y;
      assert Before(sorted[i], sorted[n + j]);
    }
    assert forall x :: x in sorted[..n] ==> x in sorted;
  }

  lemma KeptSorts(rows: seq<Row>, n: nat)
    requires DistinctIds(rows) && n > 0
    ensures Rows(Selected(rows, n)) == Rows(Kept(rows, n)) && InOrder(Selected(rows, n))
    ensures Smallest(Rows(Selected(rows, n)), Rows(rows), n)
  {
    KeptAreSmallest(rows, n);
    IdsApart(rows);
    HeapCounts(Kept(rows, n));
    SortOrders(Kept(rows, n));
  }

  /** Without a tie at the boundary the selection is the first `n` of the sorted rows,
      whatever order they came in. */
  lemma SelectionIsSortedPrefix(rows: seq<Row>, n: nat)
    requires DistinctIds(rows) && 0 < n <= |rows| && !Tie(Rows(rows), n)
    ensures Selected(rows, n) == Sort(rows)[..n]
  {
    IdsApart(rows);
    SortOrders(rows);
    PrefixIsSmallest(Sort(rows), n);
    KeptSorts(rows, n);
    OnlyOneSmallest(Rows(Selected(rows, n)), Rows(Sort(rows)[..n]), Rows(rows), n);
    OneOrder(Selected(rows, n), Sort(rows)[..n]);
  }

  /** The selection is the same for every order of the rows exactly if no two rows of
      equal priority lie on either side of the boundary. */
  lemma OrderIsIrrelevantIff(rows: seq<Row>, n: nat)
    requires DistinctIds(rows) && 0 < n <= |rows|
    ensures (forall others :: Permutes(rows, others) ==> Selected(others, n) == Selected(rows, n)) <==>
            !Tie(Rows(rows), n)
  {
    if Tie(Rows(rows), n) {
      var others := OrderMatters(rows, n);
      KeptSorts(rows, n);
      KeptSorts(others, n);
    } else {
      forall others | Permutes(rows, others) ensures Selected(others, n) == Selected(rows, n) {
        SelectionIsSortedPrefix(rows, n);
        SelectionIsSortedPrefix(others, n);
        IdsApart(rows);
        SortOrders(rows);
        SortOrders(others);
        OneOrder(Sort(rows), Sort(others));
      }
    }
  }

  /** Priorities without collisions leave no tie. */
  lemma NoCollisionsNoTie(all: set<Row>, n: nat)
    requires forall x, y :: x in all && y in all && x.priority == y.priority ==> x == y
    ensures !Tie(all, n)
  {
    forall x | x in all ensures !(|Lower(all, x.priority)| < n < |AtMost(all, x.priority)|) {
      assert AtMost(all, x.priority) == Lower(all, x.priority) + {x};
    }
  }

  /** So if no two case ids have the same digest, the order of the source never matters. */
  lemma DistinctHashesDecide(rows: seq<Row>, others: seq<Row>, n: nat)
    requires DistinctIds(rows) && 0 < n <= |rows| && Permutes(rows, others)
    requires forall x, y :: x in rows && y in rows && x.priority == y.priority ==> x == y
    ensures Selected(others, n) == Selected(rows, n)
  {
    NoCollisionsNoTie(Rows(rows), n);
    OrderIsIrrelevantIff(rows, n);
  }

  /** With equal digests the row that comes first stays. */
  lemma FirstOfATieStays()
    ensures var a, b := Row(1, 5, 0), Row(2, 5, 0);
            Permutes([a, b], [b, a]) && Selected([a, b], 1) == [a] && Selected([b, a], 1) == [b]
  {
    var a, b := Row(1, 5, 0), Row(2, 5, 0);
    forall x, y | (x == a && y == b) || (x == b && y == a) ensures Selected([x, y], 1) == [x] {
      assert [x, y][..1] == [x] && [x][..0] == [];
      assert Kept([x], 1) == [x];
      assert Kept([x, y], 1) == [x];
    }
    assert forall x :: x in [a, b] <==> x in [b, a];
  }

  // ---- the program ----------------------------------------------------------------------------

  /** The official splits; any other name is refused. */
  datatype Split = Train | Validation | Other

  /** A source row: its id as a number in string order, zero if it is missing or no string,
      and the digests of the id under the two seeded prefixes. */
  datatype Case = Case(id: nat, selection: nat, partition: nat)

  const TRAINING := 0
  const NLL_VALIDATION := 1
  const CALIBRATION := 2
  const EVALUATION := 3

  /** `split_for` */
  function SplitFor(digest: nat): nat {
    if digest % 100 < 80 then TRAINING else if digest % 100 < 90 then NLL_VALIDATION else CALIBRATION
  }

  function RowOf(c: Case, split: Split): (r: Row)
    ensures r.group in Groups(split)
  {
    Row(c.id, c.selection, if split.Train? then SplitFor(c.partition) else EVALUATION)
  }

  function RowsOf(cases: seq<Case>, split: Split): (r: seq<Row>)
    ensures |r| == |cases| && forall i :: 0 <= i < |cases| ==> r[i] == RowOf(cases[i], split)
  {
    seq(|cases|, i requires 0 <= i < |cases| => RowOf(cases[i], split))
  }

  /** The groups that need a count. */
  function Groups(split: Split): set<nat> {
    if split.Train? then {TRAINING, NLL_VALIDATION, CALIBRATION} else {EVALUATION}
  }

  function InGroup(rows: seq<Row>, group: nat): seq<Row> {
    if rows == [] then []
    else InGroup(rows[..|rows| - 1], group) + if rows[|rows| - 1].group == group then [rows[|rows| - 1]] else []
  }

  /** A case id is missing (zero) or repeated. */
  predicate Usable(rows: seq<Row>) {
    (forall i :: 0 <= i < |rows| ==> rows[i].id != 0) && forall i, j :: 0 <= i < |rows| && i < j < |rows| ==>
        rows[i].id != rows[j].id
  }

  lemma {:induction false} InGroupIds(rows: seq<Row>, group: nat)
    requires DistinctIds(rows)
    ensures DistinctIds(InGroup(rows, group))
    ensures forall x :: x in InGroup(rows, group) <==> x in rows && x.group == group
  {
    if rows != [] {
      var init, last := rows[..|rows| - 1], rows[|rows| - 1];
      InGroupIds(init, group);
      assert rows == init + [last];
      forall x | x in init ensures x.id != last.id { var i :| 0 <= i < |init| && init[i] == x; }
    }
  }

  lemma KeptOne(init: seq<Row>, last: Row, group: nat, n: nat)
    ensures Kept(InGroup(init + [last], group), n) ==
      if last.group == group then Offer(Kept(InGroup(init, group), n), n, last) else Kept(InGroup(init, group), n)
  {
    var rows := init + [last];
    assert rows[..|rows| - 1] == init;
    if last.group == group {
      var s := InGroup(rows, group);
      assert s[..|s| - 1] == InGroup(init, group) && s[|s| - 1] == last;
    } else {
      assert InGroup(rows, group) == InGroup(init, group);
    }
  }

  ghost predicate Filled(heaps: map<nat, seq<Row>>, rows: seq<Row>, counts: map<nat, nat>) {
    heaps.Keys == counts.Keys && forall g :: g in counts ==> heaps[g] == Kept(InGroup(rows, g), counts[g])
  }

  lemma FilledOne(heaps: map<nat, seq<Row>>, init: seq<Row>, row: Row, counts: map<nat, nat>)
    requires row.group in counts && Filled(heaps, init, counts)
    ensures Filled(heaps[row.group := Offer(heaps[row.group], counts[row.group], row)], init + [row], counts)
  {
    var heaps' := heaps[row.group := Offer(heaps[row.group], counts[row.group], row)];
    forall g | g in counts ensures heaps'[g] == Kept(InGroup(init + [row], g), counts[g]) {
      KeptOne(init, row, g, counts[g]);
    }
  }

  function Ids(rows: seq<Row>): set<nat> {
    set k | 0 <= k < |rows| :: rows[k].id
  }

  lemma UsableOne(init: seq<Row>, row: Row)
    requires Usable(init)
    ensures Usable(init + [row]) <==> row.id != 0 && row.id !in Ids(init)
    ensures Ids(init + [row]) == Ids(init) + {row.id}
  {
    var rows := init + [row];
    forall k | 0 <= k < |init| ensures rows[k] == init[k] {}
    assert rows[|init|] == row;
    forall id | id in Ids(init) ensures id in Ids(rows) {
      var k :| 0 <= k < |init| && init[k].id == id;
      assert rows[k].id == id;
    }
    if row.id in Ids(init) {
      var k :| 0 <= k < |init| && init[k].id == row.id;
      assert rows[k].id == rows[|init|].id;
    }
  }

  lemma UsablePrefix(rows: seq<Row>, i: nat)
    requires i <= |rows| && Usable(rows)
    ensures Usable(rows[..i])
  {}

  lemma NextPrefix(rows: seq<Row>, i: nat)
    requires i < |rows|
    ensures rows[..i + 1] == rows[..i] + [rows[i]]
  {}

  /** The loop over the cases with its heaps and `seen`. */
  method FillHeaps(cases: seq<Case>, counts: map<nat, nat>, split: Split)
    returns (heaps: map<nat, seq<Row>>, seen: set<nat>, ok: bool)
    requires counts.Keys == Groups(split)
    ensures ok <==> Usable(RowsOf(cases, split))
    ensures ok ==> Filled(heaps, RowsOf(cases, split), counts) && seen == Ids(RowsOf(cases, split))
  {
    ghost var rows := RowsOf(cases, split);
    heaps := map g | g in counts :: [];
    seen := {};
    ok := true;
    for i := 0 to |cases|
      invariant ok && Usable(rows[..i]) == true && seen == Ids(rows[..i])
      invariant Filled(heaps, rows[..i], counts) == true
    {
      var row := RowOf(cases[i], split);
      NextPrefix(rows, i);
      UsableOne(rows[..i], row);
      if row.id == 0 || row.id in seen {
        if Usable(rows) { UsablePrefix(rows, i + 1); }
        return heaps, seen, false;
      }
      seen := seen + {row.id};
      FilledOne(heaps, rows[..i], row, counts);
      heaps := heaps[row.group := Offer(heaps[row.group], counts[row.group], row)];
    }
    assert rows[..|rows|] == rows;
  }

  lemma KeptCounts(rows: seq<Row>, n: nat)
    requires DistinctIds(rows) && n > 0
    ensures |Kept(rows, n)| == if n < |rows| then n else |rows|
  {
    KeptAreSmallest(rows, n);
    HeapCounts(Kept(rows, n));
    IdsApart(rows);
  }

  /** Whether every group has as many rows as are wanted. */
  predicate Enough(rows: seq<Row>, counts: map<nat, nat>) {
    forall g :: g in counts ==> 0 < counts[g] <= |InGroup(rows, g)|
  }

  function Selections(rows: seq<Row>, counts: map<nat, nat>): map<nat, seq<Row>> {
    map g | g in counts :: Selected(InGroup(rows, g), counts[g])
  }

  predicate Full(heaps: map<nat, seq<Row>>, counts: map<nat, nat>)
    requires counts.Keys <= heaps.Keys
  {
    forall g :: g in counts ==> |heaps[g]| == counts[g]
  }

  function Emptied(heaps: map<nat, seq<Row>>): map<nat, seq<Row>> {
    map g | g in heaps :: Sort(heaps[g])
  }

  /** A full heap is one with enough rows, and is sorted at the end. */
  lemma FullHeaps(heaps: map<nat, seq<Row>>, rows: seq<Row>, counts: map<nat, nat>)
    requires DistinctIds(rows) && Filled(heaps, rows, counts) && forall g :: g in counts ==> counts[g] > 0
    ensures Full(heaps, counts) <==> Enough(rows, counts)
    ensures Emptied(heaps) == Selections(rows, counts)
  {
    forall g | g in counts ensures |heaps[g]| == counts[g] <==> counts[g] <= |InGroup(rows, g)| {
      InGroupIds(rows, g);
      KeptCounts(InGroup(rows, g), counts[g]);
    }
  }

  /** The loop and what follows it. */
  method SelectGroups(cases: seq<Case>, counts: map<nat, nat>, split: Split)
    returns (r: Result<(map<nat, seq<Row>>, set<nat>)>)
    requires counts.Keys == Groups(split) && forall g :: g in counts ==> counts[g] > 0
    ensures r.Ok? <==> Usable(RowsOf(cases, split)) && Enough(RowsOf(cases, split), counts)
    ensures r.Err? ==> r.error == Invalid
    ensures r.Ok? ==> r.value == (Selections(RowsOf(cases, split), counts), Ids(RowsOf(cases, split)))
  {
    var heaps, seen, ok := FillHeaps(cases, counts, split);
    if !ok { return Err(Invalid); }
    FullHeaps(heaps, RowsOf(cases, split), counts);
    if !Full(heaps, counts) { return Err(Invalid); }
    r := Ok((Emptied(heaps), seen));
  }

  predicate Positive(counts: map<nat, int>) {
    forall g :: g in counts ==> counts[g] >= 1
  }

  function Limits(counts: map<nat, int>): (r: map<nat, nat>)
    requires Positive(counts)
    ensures r.Keys == counts.Keys && forall g :: g in counts ==> r[g] == counts[g] && r[g] > 0
  {
    map g | g in counts :: counts[g]
  }

  // ---- what is drawn, in terms of the cases ---------------------------------------------------

  /** The group of a case: of a hundred partition numbers the first eighty train, the next ten
      validate and the last ten calibrate; the validation split is all evaluation. */
  predicate Belongs(c: Case, split: Split, group: nat) {
    if !split.Train? then group == EVALUATION
    else
      || (group == TRAINING && c.partition % 100 < 80)
      || (group == NLL_VALIDATION && 80 <= c.partition % 100 < 90)
      || (group == CALIBRATION && 90 <= c.partition % 100)
  }

  /** The positions of a group's cases. */
  ghost function Members(cases: seq<Case>, split: Split, group: nat): set<nat> {
    set i: nat | i < |cases| && Belongs(cases[i], split, group)
  }

  /** Ids are given and distinct. */
  ghost predicate Identified(cases: seq<Case>) {
    && (forall i :: 0 <= i < |cases| ==> cases[i].id != 0)
    && forall i, j :: 0 <= i < |cases| && i < j < |cases| ==> cases[i].id != cases[j].id
  }

  /** The split is official, its groups and no others have counts of at least one, ids are given
      and distinct, and every group has as many cases as it must. */
  ghost predicate Selectable(cases: seq<Case>, counts: map<nat, int>, split: Split) {
    && !split.Other? && Grouped(counts, split) == true && Identified(cases) == true
    && Supplied(cases, counts, split) == true
  }

  ghost predicate Grouped(counts: map<nat, int>, split: Split) {
    forall g: nat :: g in counts <==> if split.Train? then g <= 2 else g == 3
  }

  ghost predicate Supplied(cases: seq<Case>, counts: map<nat, int>, split: Split) {
    forall g :: g in counts ==> 1 <= counts[g] <= |Members(cases, split, g)|
  }

  /** So many cases of the group, by digest and then id; no case of the group that is left out
      has a smaller digest than one that is taken. */
  ghost predicate Drawn(rows: seq<Row>, cases: seq<Case>, split: Split, group: nat, count: int) {
    && |rows| == count
    && (forall i, j :: 0 <= i < |rows| && i < j < |rows| ==>
          rows[i].priority < rows[j].priority
          || (rows[i].priority == rows[j].priority && rows[i].id < rows[j].id))
    && (forall x :: x in rows ==>
          exists c :: c in cases && Belongs(c, split, group) && x.id == c.id && x.priority == c.selection)
    && forall x, c :: x in rows && c in cases && Belongs(c, split, group) && c.selection < x.priority ==>
         exists y :: y in rows && y.id == c.id
  }

  lemma RowBelongs(c: Case, split: Split, group: nat)
    ensures RowOf(c, split).group == group <==> Belongs(c, split, group)
    ensures RowOf(c, split).id == c.id && RowOf(c, split).priority == c.selection
  {}

  lemma CaseOf(cases: seq<Case>, split: Split, x: Row) returns (c: Case)
    requires x in RowsOf(cases, split)
    ensures c in cases && x == RowOf(c, split)
  {
    var i :| 0 <= i < |cases| && RowsOf(cases, split)[i] == x;
    c := cases[i];
  }

  lemma MembersOne(cases: seq<Case>, split: Split, group: nat, n: nat)
    requires |cases| == n + 1
    ensures Members(cases, split, group)
            == Members(cases[..n], split, group) + if Belongs(cases[n], split, group) then {n} else {}
  {}

  lemma InGroupOne(cases: seq<Case>, split: Split, group: nat, n: nat)
    requires |cases| == n + 1
    ensures InGroup(RowsOf(cases, split), group) == InGroup(RowsOf(cases[..n], split), group)
              + if Belongs(cases[n], split, group) then [RowOf(cases[n], split)] else []
  {
    RowBelongs(cases[n], split, group);
    assert RowsOf(cases, split)[..n] == RowsOf(cases[..n], split);
  }

  lemma {:induction false} GroupCount(cases: seq<Case>, split: Split, group: nat)
    ensures |InGroup(RowsOf(cases, split), group)| == |Members(cases, split, group)|
  {
    if cases == [] {
      assert Members(cases, split, group) == {};
    } else {
      var n := |cases| - 1;
      GroupCount(cases[..n], split, group);
      InGroupOne(cases, split, group, n);
      MembersOne(cases, split, group, n);
    }
  }

  lemma DrawnFrom(cases: seq<Case>, split: Split, group: nat, n: nat)
    requires Identified(cases) && 0 < n <= |Members(cases, split, group)|
    ensures Drawn(Selected(InGroup(RowsOf(cases, split), group), n), cases, split, group, n)
  {
    var rows := RowsOf(cases, split);
    var own := InGroup(rows, group);
    var drawn := Selected(own, n);
    InGroupIds(rows, group);
    GroupCount(cases, split, group);
    KeptSorts(own, n);
    IdsApart(own);
    forall i, j | 0 <= i < |drawn| && i < j < |drawn| ensures drawn[i] != drawn[j] {
      assert Before(drawn[i], drawn[j]);
    }
    CountRows(drawn);
    forall x | x in drawn
      ensures exists c :: c in cases && Belongs(c, split, group) && x.id == c.id && x.priority == c.selection
    {
      assert x in Rows(drawn);
      var c := CaseOf(cases, split, x);
      RowBelongs(c, split, group);
    }
    forall x, c | x in drawn && c in cases && Belongs(c, split, group) && c.selection < x.priority
      ensures exists y :: y in drawn && y.id == c.id
    {
      RowBelongs(c, split, group);
      var i :| 0 <= i < |cases| && cases[i] == c;
      assert rows[i] == RowOf(c, split) && rows[i] in own && x in Rows(drawn);
      assert RowOf(c, split) in Rows(drawn);
    }
  }

  lemma IdsOfCases(cases: seq<Case>, split: Split)
    ensures forall id :: id in Ids(RowsOf(cases, split)) <==> exists c :: c in cases && c.id == id
  {
    var rows := RowsOf(cases, split);
    forall i | 0 <= i < |cases| ensures rows[i].id == cases[i].id { RowBelongs(cases[i], split, 0); }
    forall id | exists c :: c in cases && c.id == id ensures id in Ids(rows) {
      var c :| c in cases && c.id == id;
      var i :| 0 <= i < |cases| && cases[i] == c;
      assert rows[i].id == id;
    }
    forall id | id in Ids(rows) ensures exists c :: c in cases && c.id == id {
      var i :| 0 <= i < |rows| && rows[i].id == id;
      assert cases[i] in cases;
    }
  }

  lemma GroupsExactly(counts: map<nat, int>, split: Split)
    ensures Grouped(counts, split) <==> counts.Keys == Groups(split)
  {
    assert forall g: nat :: g in Groups(split) <==> if split.Train? then g <= 2 else g == 3;
    if Grouped(counts, split) {
      forall g: nat ensures g in counts.Keys <==> g in Groups(split) { assert g in counts <==> g in counts.Keys; }
    }
    if counts.Keys == Groups(split) {
      forall g: nat ensures g in counts <==> g in Groups(split) { assert g in counts <==> g in counts.Keys; }
    }
  }

  lemma IdentifiedExactly(cases: seq<Case>, split: Split)
    ensures Identified(cases) <==> Usable(RowsOf(cases, split))
  {
    var rows := RowsOf(cases, split);
    forall i | 0 <= i < |cases| ensures rows[i].id == cases[i].id { RowBelongs(cases[i], split, 0); }
  }

  lemma EnoughExactly(cases: seq<Case>, counts: map<nat, int>, split: Split)
    ensures Supplied(cases, counts, split) <==> Positive(counts) && Enough(RowsOf(cases, split), Limits(counts))
  {
    forall g ensures |InGroup(RowsOf(cases, split), g)| == |Members(cases, split, g)| { GroupCount(cases, split, g); }
  }

  /** The cases can be drawn from exactly if the checks of the code pass. */
  lemma SelectableExactly(cases: seq<Case>, counts: map<nat, int>, split: Split)
    ensures Selectable(cases, counts, split)
            <==> !split.Other? && counts.Keys == Groups(split) && Positive(counts)
                 && Usable(RowsOf(cases, split)) && Enough(RowsOf(cases, split), Limits(counts))
  {
    GroupsExactly(counts, split);
    IdentifiedExactly(cases, split);
    EnoughExactly(cases, counts, split);
  }

  /** `select_rows`: another split, counts that are missing, unknown or below one, unusable
      ids and a group with too few rows are errors; otherwise every group gets its
      selection, and all ids are reported. */
  method SelectRows(cases: seq<Case>, counts: map<nat, int>, split: Split)
    returns (r: Result<(map<nat, seq<Row>>, set<nat>)>)
    ensures r.Ok? <==> !split.Other? && counts.Keys == Groups(split) && Positive(counts)
                       && Usable(RowsOf(cases, split)) && Enough(RowsOf(cases, split), Limits(counts))
    ensures r.Err? ==> r.error == Invalid
    ensures r.Ok? ==>
              Positive(counts)
                  && r.value == (Selections(RowsOf(cases, split), Limits(counts)), Ids(RowsOf(cases, split)))
    ensures r.Ok? <==> Selectable(cases, counts, split)
    ensures r.Ok? ==> r.value.0.Keys == counts.Keys
    ensures r.Ok? ==> forall g :: g in counts ==> Drawn(r.value.0[g], cases, split, g, counts[g])
    ensures r.Ok? ==> forall id :: id in r.value.1 <==> exists c :: c in cases && c.id == id
  {
    SelectableExactly(cases, counts, split);
    if split.Other? || counts == map[] || !Positive(counts) || counts.Keys != Groups(split) { return Err(Invalid); }
    r := SelectGroups(cases, Limits(counts), split);
    if r.Ok? {
      forall g | g in counts ensures Drawn(r.value.0[g], cases, split, g, counts[g]) == true {
        DrawnFrom(cases, split, g, counts[g]);
      }
      IdsOfCases(cases, split);
    }
  }
}
