/** Parent links: the category and location trees as maps from an id to its
    parent id, the cycle guard, and the nesting of a flat list into a forest. */
module Forest {
  import Seqs

  type Parents = map<string, string>

  /** The chain of parents from id leaves the map within n steps. */
  ghost predicate Climbs(p: Parents, id: string, n: nat)
    decreases n
  {
    id !in p || (n > 0 && Climbs(p, p[id], n - 1))
  }

  /** Exactly k parent steps lead from one id to the other. */
  ghost predicate Reaches(p: Parents, from: string, to: string, k: nat)
    decreases k
  {
    if k == 0 then from == to else from in p && Reaches(p, p[from], to, k - 1)
  }

  /** id is a proper ancestor of the node. */
  ghost predicate Above(p: Parents, id: string, node: string) {
    exists k: nat :: k > 0 && Reaches(p, node, id, k)
  }

  ghost predicate OnCycle(p: Parents, id: string) { Above(p, id, id) }

  ghost predicate Acyclic(p: Parents) {
    forall id <- p :: exists n: nat :: Climbs(p, id, n)
  }

  /** Every parent that is named exists. */
  predicate Closed(p: Parents) {
    "" !in p && forall id <- p :: p[id] == "" || p[id] in p
  }

  // ---- reachability

  lemma {:induction false} ClimbsMore(p: Parents, id: string, n: nat, m: nat)
    requires Climbs(p, id, n) && n <= m
    ensures Climbs(p, id, m)
    decreases n
  {
    if id in p {
      ClimbsMore(p, p[id], n - 1, m - 1);
    }
  }

  lemma {:induction false} ReachesJoin(p: Parents, a: string, b: string, c: string, j: nat, k: nat)
    requires Reaches(p, a, b, j) && Reaches(p, b, c, k)
    ensures Reaches(p, a, c, j + k)
    decreases j
  {
    if j > 0 {
      ReachesJoin(p, p[a], b, c, j - 1, k);
    }
  }

  /** A set closed under taking parents, none of which is id, contains no way up to id. */
  lemma {:induction false} NotAbove(p: Parents, id: string, node: string, s: set<string>, k: nat)
    requires node in s && k > 0
    requires forall x <- s :: x in p ==> p[x] in s && p[x] != id
    ensures !Reaches(p, node, id, k)
    decreases k
  {
    if node in p && k > 1 {
      NotAbove(p, id, p[node], s, k - 1);
    }
  }

  /** The links the cycle guard follows: it stops at an empty id even if a row has one. */
  function Walk(p: Parents): Parents { p - {""} }

  /** The walk of the cycle guard: from the candidate upwards until a parent is
      the id looked for, an id is missing or empty, or the walk repeats itself. */
  method IsAncestor(p: Parents, id: string, candidate: string) returns (above: bool)
    ensures above <==> Above(Walk(p), id, candidate)
  {
    ghost var q := Walk(p);
    var seen: set<string> := {};
    var cur := candidate;
    ghost var steps: nat := 0;
    while cur != "" && cur !in seen
      invariant seen <= q.Keys
      invariant forall x <- seen :: q[x] != id && (q[x] in seen || q[x] == cur)
      invariant candidate in seen || candidate == cur
      invariant Reaches(q, candidate, cur, steps)
      decreases q.Keys - seen
    {
      if cur !in p {
        forall k: nat | k > 0 ensures !Reaches(q, candidate, id, k) {
          NotAbove(q, id, candidate, seen + {cur}, k);
        }
        return false;
      }
      assert Reaches(q, cur, q[cur], 1) by { assert Reaches(q, q[cur], q[cur], 0); }
      ReachesJoin(q, candidate, cur, q[cur], steps, 1);
      if p[cur] == id {
        return true;
      }
      seen := seen + {cur};
      cur := p[cur];
      steps := steps + 1;
    }
    forall k: nat | k > 0 ensures !Reaches(q, candidate, id, k) {
      NotAbove(q, id, candidate, seen + {cur}, k);
    }
    return false;
  }

  // ---- acyclicity

  /** Without a cycle the chain of parents is at most as long as the set it stays in. */
  lemma {:induction false} ClimbsWithin(p: Parents, id: string, room: set<string>)
    requires forall x <- p :: !OnCycle(p, x)
    requires forall x, k: nat :: Reaches(p, id, x, k) && x in p ==> x in room
    ensures Climbs(p, id, |room|)
    decreases |room|
  {
    if id in p {
      assert Reaches(p, id, id, 0);
      forall x, k: nat | Reaches(p, p[id], x, k) && x in p
        ensures x in room - {id}
      {
        assert Reaches(p, id, x, k + 1);
        if x == id {
          assert OnCycle(p, id);
        }
      }
      ClimbsWithin(p, p[id], room - {id});
    }
  }

  lemma {:induction false} ClimbsTooLow(p: Parents, id: string, k: nat, n: nat)
    requires id in p && k > 0 && Reaches(p, id, id, k)
    ensures !Climbs(p, id, n)
  {
    if Climbs(p, id, n) {
      ClimbsAlong(p, id, id, k, n);
      ClimbsTooLow(p, id, k, n - k);
    }
  }

  lemma {:induction false} ClimbsAlong(p: Parents, a: string, b: string, k: nat, n: nat)
    requires Climbs(p, a, n) && Reaches(p, a, b, k)
    ensures k <= n && Climbs(p, b, n - k)
    decreases k
  {
    if k > 0 {
      ClimbsAlong(p, p[a], b, k - 1, n - 1);
    }
  }

  /** A parent map is acyclic exactly when no id lies on a cycle; then no chain
      is longer than the map. */
  lemma AcyclicExactlyWithoutCycles(p: Parents)
    ensures Acyclic(p) <==> forall id <- p :: !OnCycle(p, id)
    ensures Acyclic(p) ==> forall id <- p :: Climbs(p, id, |p|)
  {
    if forall id <- p :: !OnCycle(p, id) {
      forall id <- p ensures Climbs(p, id, |p|) {
        ClimbsWithin(p, id, p.Keys);
      }
    } else {
      var id :| id in p && OnCycle(p, id);
      var k: nat :| k > 0 && Reaches(p, id, id, k);
      forall n: nat ensures !Climbs(p, id, n) {
        ClimbsTooLow(p, id, k, n);
      }
    }
  }

  lemma {:induction false} ClimbsElsewhere(p: Parents, id: string, up: string, x: string, n: nat)
    requires Climbs(p, x, n)
    requires forall k: nat :: !Reaches(p, x, id, k)
    ensures Climbs(p[id := up], x, n)
    decreases n
  {
    assert !Reaches(p, x, id, 0);
    if x in p {
      forall k: nat ensures !Reaches(p, p[x], id, k) {
        assert !Reaches(p, x, id, k + 1);
      }
      ClimbsElsewhere(p, id, up, p[x], n - 1);
    }
  }

  lemma {:induction false} ClimbsThrough(p: Parents, id: string, up: string, x: string, n: nat, m: nat)
    requires Climbs(p, x, n)
    requires Climbs(p[id := up], id, m)
    ensures Climbs(p[id := up], x, n + m)
    decreases n
  {
    if x == id {
      ClimbsMore(p[id := up], id, m, n + m);
    } else if x in p {
      ClimbsThrough(p, id, up, p[x], n - 1, m);
    }
  }

  /** Hanging id under a node that is neither id nor below id keeps the map acyclic. */
  lemma ReparentKeepsAcyclic(p: Parents, id: string, up: string)
    requires Acyclic(p) && up != id && !Above(p, id, up)
    ensures Acyclic(p[id := up])
  {
    var q := p[id := up];
    var n: nat := |p|;
    AcyclicExactlyWithoutCycles(p);
    forall k: nat ensures !Reaches(p, up, id, k) {}
    assert Climbs(p, up, n);
    ClimbsElsewhere(p, id, up, up, n);
    assert Climbs(q, id, n + 1);
    forall x <- q ensures exists m: nat :: Climbs(q, x, m) {
      assert Climbs(p, x, n);
      ClimbsThrough(p, id, up, x, n, n + 1);
    }
  }

  /** ... and hanging it under itself or below itself never does. */
  lemma ReparentOntoDescendant(p: Parents, id: string, up: string)
    requires id in p && (up == id || Above(p, id, up))
    ensures !Acyclic(p[id := up])
  {
    var q := p[id := up];
    var k: nat := 0;
    if up != id {
      k :| k > 0 && Reaches(p, up, id, k);
    }
    var j := FirstArrival(p, q, id, up, k);
    assert Reaches(q, id, id, j + 1);
    assert OnCycle(q, id);
    AcyclicExactlyWithoutCycles(q);
  }

  /** A chain that arrives at id arrives there a first time, before which id's own
      parent link plays no part. */
  lemma {:induction false} FirstArrival(p: Parents, q: Parents, id: string, x: string, k: nat) returns (j: nat)
    requires Reaches(p, x, id, k) && p - {id} == q - {id}
    ensures Reaches(q, x, id, j)
    decreases k
  {
    if x == id {
      j := 0;
    } else {
      assert x in p - {id} && (p - {id})[x] == p[x] == (q - {id})[x] == q[x];
      j := FirstArrival(p, q, id, p[x], k - 1);
      j := j + 1;
    }
  }

  lemma {:induction false} ClimbsWithout(p: Parents, id: string, x: string, n: nat)
    requires Climbs(p, x, n)
    ensures Climbs(p - {id}, x, n)
    decreases n
  {
    if x in p && x != id {
      ClimbsWithout(p, id, p[x], n - 1);
    }
  }

  lemma RemoveKeepsAcyclic(p: Parents, id: string)
    requires Acyclic(p)
    ensures Acyclic(p - {id})
  {
    forall x <- p - {id} ensures exists n: nat :: Climbs(p - {id}, x, n) {
      var n: nat :| Climbs(p, x, n);
      ClimbsWithout(p, id, x, n);
    }
  }

  /** In a closed map nothing leads to an id that is not in it. */
  lemma {:induction false} NothingAboveIsNew(p: Parents, id: string, x: string, k: nat)
    requires Closed(p) && id !in p && id != "" && x != id && (x in p || x == "")
    ensures !Reaches(p, x, id, k)
    decreases k
  {
    if k > 0 && x in p {
      NothingAboveIsNew(p, id, p[x], k - 1);
    }
  }

  // ---- nesting a flat list

  /** A row of the flat list: its id and the parent it names. */
  datatype Item = Item(id: string, parent: string)

  function Ids(rows: seq<Item>): (r: seq<string>)
    ensures |r| == |rows| && forall i :: 0 <= i < |rows| ==> r[i] == rows[i].id
  {
    if rows == [] then [] else Ids(rows[..|rows| - 1]) + [rows[|rows| - 1].id]
  }

  predicate DistinctIds(rows: seq<Item>) {
    forall i, j :: 0 <= i < j < |rows| ==> rows[i].id != rows[j].id
  }

  function IdSet(rows: seq<Item>): set<string> {
    if rows == [] then {} else IdSet(rows[..|rows| - 1]) + {rows[|rows| - 1].id}
  }

  lemma {:induction false} IdSetHolds(rows: seq<Item>, id: string)
    ensures id in IdSet(rows) <==> exists i :: 0 <= i < |rows| && rows[i].id == id
  {
    if rows != [] {
      IdSetHolds(rows[..|rows| - 1], id);
    }
  }

  lemma LastIsNew(rows: seq<Item>)
    requires DistinctIds(rows) && rows != []
    ensures DistinctIds(rows[..|rows| - 1]) && rows[|rows| - 1].id !in IdSet(rows[..|rows| - 1])
  {
    IdSetHolds(rows[..|rows| - 1], rows[|rows| - 1].id);
  }

  /** The parents of the nodes: of rows with the same id the last counts. */
  function ParentsOf(rows: seq<Item>): (p: Parents)
    ensures p.Keys == IdSet(rows)
  {
    if rows == [] then map[]
    else
      var n := |rows| - 1;
      ParentsOf(rows[..n])[rows[n].id := rows[n].parent]
  }

  lemma {:induction false} ParentAt(rows: seq<Item>, i: nat)
    requires DistinctIds(rows) && i < |rows|
    ensures rows[i].id in ParentsOf(rows) && ParentsOf(rows)[rows[i].id] == rows[i].parent
  {
    hide IdSet;
    var n := |rows| - 1;
    if i < n {
      ParentAt(rows[..n], i);
    }
  }

  /** A row is hung under the parent it names if that is there, is another one and has no
      such row above it; otherwise it becomes a root. */
  ghost predicate Hangs(p: Parents, c: Item) {
    c.parent in p && c.parent != c.id && !Above(Walk(p), c.id, c.parent)
  }

  /** The links of the nodes' own rows that are kept. */
  ghost function Kept(p: Parents): (q: Parents)
    ensures forall id :: id in q <==> id in p && Hangs(p, Item(id, p[id]))
    ensures forall id <- q :: id in p && q[id] == p[id] && q[id] in p
  {
    map id | id in p && Hangs(p, Item(id, p[id])) :: p[id]
  }

  ghost function Roots(rows: seq<Item>, p: Parents): seq<string> {
    if rows == [] then []
    else
      var n := |rows| - 1;
      Roots(rows[..n], p) + if Hangs(p, rows[n]) then [] else [rows[n].id]
  }

  /** The children of x, in the order of the rows. */
  ghost function Children(rows: seq<Item>, p: Parents, x: string): seq<string> {
    if rows == [] then []
    else
      var n := |rows| - 1;
      Children(rows[..n], p, x) + if Hangs(p, rows[n]) && rows[n].parent == x then [rows[n].id] else []
  }

  ghost function ChildrenOfAll(rows: seq<Item>, p: Parents, xs: seq<string>): seq<string> {
    if xs == [] then [] else ChildrenOfAll(rows, p, xs[..|xs| - 1]) + Children(rows, p, xs[|xs| - 1])
  }

  /** The nodes k levels below the roots, one entry for each path that leads to one. */
  ghost function Level(rows: seq<Item>, p: Parents, k: nat): seq<string> {
    if k == 0 then Roots(rows, p) else ChildrenOfAll(rows, p, Level(rows, p, k - 1))
  }

  function Concat(parts: seq<seq<string>>): seq<string> {
    if parts == [] then [] else Concat(parts[..|parts| - 1]) + parts[|parts| - 1]
  }

  /** Everything in the forest, level by level, down to depth n. */
  ghost function Flatten(rows: seq<Item>, p: Parents, n: nat): seq<string> {
    Concat(seq(n, k requires k >= 0 => Level(rows, p, k)))
  }

  /** The row hangs k levels below a root. */
  predicate AtDepth(ids: set<string>, kept: Parents, x: string, k: nat)
    decreases k
  {
    if k == 0 then x in ids && x !in kept else x in kept && AtDepth(ids, kept, kept[x], k - 1)
  }

  function One(b: bool): nat { if b then 1 else 0 }

  lemma {:induction false} IdsOccur(rows: seq<Item>, x: string)
    requires DistinctIds(rows)
    ensures multiset(Ids(rows))[x] == One(x in IdSet(rows))
  {
    if rows != [] {
      LastIsNew(rows);
      IdsOccur(rows[..|rows| - 1], x);
    }
  }

  /** The kept links are those of the rows. */
  ghost predicate Links(rows: seq<Item>, p: Parents, kept: Parents) {
    forall i :: 0 <= i < |rows| ==>
      (Hangs(p, rows[i]) <==> rows[i].id in kept) && (Hangs(p, rows[i]) ==> kept[rows[i].id] == rows[i].parent)
  }

  lemma {:induction false} RootsOccur(rows: seq<Item>, p: Parents, kept: Parents, x: string)
    requires DistinctIds(rows) && Links(rows, p, kept)
    ensures multiset(Roots(rows, p))[x] == One(x in IdSet(rows) && x !in kept)
  {
    hide Hangs;
    if rows != [] {
      LastIsNew(rows);
      RootsOccur(rows[..|rows| - 1], p, kept, x);
    }
  }

  lemma {:induction false} ChildrenOccur(rows: seq<Item>, p: Parents, kept: Parents, y: string, x: string)
    requires DistinctIds(rows) && Links(rows, p, kept)
    ensures multiset(Children(rows, p, y))[x] == One(x in IdSet(rows) && x in kept && kept[x] == y)
  {
    hide Hangs;
    if rows != [] {
      LastIsNew(rows);
      ChildrenOccur(rows[..|rows| - 1], p, kept, y, x);
    }
  }

  lemma {:induction false} AllChildrenOccur(rows: seq<Item>, p: Parents, kept: Parents, ys: seq<string>, x: string)
    requires DistinctIds(rows) && Links(rows, p, kept)
    ensures multiset(ChildrenOfAll(rows, p, ys))[x] ==
            if x in IdSet(rows) && x in kept then multiset(ys)[kept[x]] else 0
  {
    hide Children, IdSet, DistinctIds, Links;
    if ys != [] {
      var n := |ys| - 1;
      AllChildrenOccur(rows, p, kept, ys[..n], x);
      ChildrenOccur(rows, p, kept, ys[n], x);
      assert ys == ys[..n] + [ys[n]];
    }
  }

  lemma {:induction false} LevelOccurs(rows: seq<Item>, p: Parents, kept: Parents, k: nat, x: string)
    requires DistinctIds(rows) && Links(rows, p, kept) && kept.Keys <= IdSet(rows)
    ensures multiset(Level(rows, p, k))[x] == One(AtDepth(IdSet(rows), kept, x, k))
    decreases k
  {
    hide Roots, Children, ChildrenOfAll, IdSet, DistinctIds, Links;
    if k == 0 {
      RootsOccur(rows, p, kept, x);
    } else {
      AllChildrenOccur(rows, p, kept, Level(rows, p, k - 1), x);
      if x in kept {
        LevelOccurs(rows, p, kept, k - 1, kept[x]);
      }
    }
  }

  lemma {:induction false} DepthIsUnique(ids: set<string>, kept: Parents, x: string, j: nat, k: nat)
    requires AtDepth(ids, kept, x, j) && AtDepth(ids, kept, x, k)
    ensures j == k
    decreases k
  {
    if j > 0 && k > 0 {
      DepthIsUnique(ids, kept, kept[x], j - 1, k - 1);
    }
  }

  lemma {:induction false} DepthExists(ids: set<string>, kept: Parents, x: string, n: nat) returns (d: nat)
    requires x in ids && Climbs(kept, x, n)
    requires forall id <- kept :: kept[id] in ids
    ensures AtDepth(ids, kept, x, d) && d <= n
    decreases n
  {
    d := 0;
    if x in kept {
      d := DepthExists(ids, kept, kept[x], n - 1);
      d := d + 1;
    }
  }

  lemma {:induction false} ConcatOccurs(parts: seq<seq<string>>, x: string, d: int)
    requires forall k :: 0 <= k < |parts| ==> multiset(parts[k])[x] == One(k == d)
    ensures multiset(Concat(parts))[x] == One(0 <= d < |parts|)
  {
    if parts != [] {
      ConcatOccurs(parts[..|parts| - 1], x, d);
    }
  }

  lemma {:induction false} KeptReaches(p: Parents, kept: Parents, a: string, b: string, k: nat)
    requires forall id <- kept :: id in p && kept[id] == p[id]
    requires Reaches(kept, a, b, k)
    ensures Reaches(p, a, b, k)
    decreases k
  {
    if k > 0 {
      KeptReaches(p, kept, p[a], b, k - 1);
    }
  }

  /** A chain that does not pass the empty id is one the guard can follow. */
  lemma {:induction false} WalkReaches(p: Parents, a: string, b: string, k: nat)
    requires Reaches(p, a, b, k) && forall j: nat :: j < k ==> !Reaches(p, a, "", j)
    ensures Reaches(Walk(p), a, b, k)
    decreases k
  {
    if k > 0 {
      assert !Reaches(p, a, "", 0);
      forall j: nat | j < k - 1 ensures !Reaches(p, p[a], "", j) { assert !Reaches(p, a, "", j + 1); }
      WalkReaches(p, p[a], b, k - 1);
    }
  }

  /** The first time a chain comes to x. */
  lemma {:induction false} FirstTime(p: Parents, a: string, x: string, k: nat) returns (j: nat)
    requires Reaches(p, a, x, k)
    ensures j <= k && Reaches(p, a, x, j) && forall i: nat :: i < j ==> !Reaches(p, a, x, i)
    decreases k
  {
    if i: nat :| i < k && Reaches(p, a, x, i) {
      j := FirstTime(p, a, x, i);
    } else {
      j := k;
    }
  }

  /** A row on a cycle of kept links would be above the parent it names, as the guard walks. */
  lemma NotKeptOnCycle(p: Parents, id: string, k: nat)
    requires k > 0 && id in Kept(p)
    requires id == "" || forall j: nat :: j < k ==> !Reaches(Kept(p), id, "", j)
    ensures !Reaches(Kept(p), id, id, k)
  {
    var q := Kept(p);
    var up := q[id];
    if Reaches(q, id, id, k) {
      var j := FirstTime(q, up, id, k - 1);
      forall i: nat | i < j ensures !Reaches(q, up, "", i) { assert !Reaches(q, id, "", i + 1) || id == ""; }
      WalkReaches(q, up, id, j);
      KeptReaches(Walk(p), Walk(q), up, id, j);
    }
  }

  /** What is kept has no cycle: one through the empty id is cut there, any other at every row on it. */
  lemma KeptIsAcyclic(p: Parents)
    ensures Acyclic(Kept(p))
  {
    var q := Kept(p);
    forall id <- q ensures !OnCycle(q, id) {
      if OnCycle(q, id) {
        var k: nat :| k > 0 && Reaches(q, id, id, k);
        if j: nat :| j < k && Reaches(q, id, "", j) {
          ReachesSplit(q, id, "", id, j, k);
          ReachesJoin(q, "", id, "", k - j, j);
          NotKeptOnCycle(p, "", k);
        } else {
          NotKeptOnCycle(p, id, k);
        }
      }
    }
    AcyclicExactlyWithoutCycles(q);
  }

  lemma {:induction false} ReachesSplit(p: Parents, a: string, b: string, c: string, j: nat, k: nat)
    requires Reaches(p, a, b, j) && Reaches(p, a, c, k) && j <= k
    ensures Reaches(p, b, c, k - j)
    decreases j
  {
    if j > 0 { ReachesSplit(p, p[a], b, c, j - 1, k - 1); }
  }

  lemma OccursAtDepth(rows: seq<Item>, p: Parents, kept: Parents, x: string, d: int, k: nat)
    requires DistinctIds(rows) && Links(rows, p, kept) && kept.Keys <= IdSet(rows)
    requires if x in IdSet(rows) then d >= 0 && AtDepth(IdSet(rows), kept, x, d) else d < 0
    ensures multiset(Level(rows, p, k))[x] == One(k == d)
  {
    hide Links, DistinctIds, Level;
    LevelOccurs(rows, p, kept, k, x);
    if AtDepth(IdSet(rows), kept, x, k) {
      if k > 0 {
        assert x in kept;
      }
      DepthIsUnique(IdSet(rows), kept, x, d, k);
    }
  }

  lemma FindDepth(rows: seq<Item>, kept: Parents, x: string) returns (d: int)
    requires Acyclic(kept) && |kept| <= |rows|
    requires forall id <- kept :: id in IdSet(rows) && kept[id] in IdSet(rows)
    ensures if x in IdSet(rows) then 0 <= d <= |rows| && AtDepth(IdSet(rows), kept, x, d) else d < 0
  {
    d := -1;
    if x in IdSet(rows) {
      AcyclicExactlyWithoutCycles(kept);
      assert Climbs(kept, x, |kept|);
      d := DepthExists(IdSet(rows), kept, x, |kept|);
    }
  }

  lemma OccursOnce(rows: seq<Item>, p: Parents, kept: Parents, x: string)
    requires DistinctIds(rows) && Links(rows, p, kept) && Acyclic(kept) && |kept| <= |rows|
    requires forall id <- kept :: id in IdSet(rows) && kept[id] in IdSet(rows)
    ensures multiset(Flatten(rows, p, |rows| + 1))[x] == multiset(Ids(rows))[x]
  {
    hide *;
    IdsOccur(rows, x);
    assert kept.Keys <= IdSet(rows);
    var d := FindDepth(rows, kept, x);
    LevelsOccur(rows, p, kept, x, d, |rows| + 1);
  }

  lemma LevelsOccur(rows: seq<Item>, p: Parents, kept: Parents, x: string, d: int, n: nat)
    requires DistinctIds(rows) && Links(rows, p, kept) && kept.Keys <= IdSet(rows)
    requires if x in IdSet(rows) then 0 <= d < n && AtDepth(IdSet(rows), kept, x, d) else d < 0
    ensures multiset(Flatten(rows, p, n))[x] == One(x in IdSet(rows))
  {
    hide Links, DistinctIds, Level;
    var parts := seq(n, k requires k >= 0 => Level(rows, p, k));
    forall k | 0 <= k < |parts| ensures multiset(parts[k])[x] == One(k == d) {
      OccursAtDepth(rows, p, kept, x, d, k);
    }
    ConcatOccurs(parts, x, d);
  }

  lemma {:induction false} KeptSize(rows: seq<Item>, s: set<string>)
    requires forall x <- s :: x in IdSet(rows)
    ensures |s| <= |rows|
  {
    if rows == [] {
      assert s == {};
    } else {
      var last := rows[|rows| - 1].id;
      KeptSize(rows[..|rows| - 1], s - {last});
    }
  }

  lemma {:induction false} RootsHold(rows: seq<Item>, p: Parents, c: Item)
    requires c in rows && !Hangs(p, c)
    ensures c.id in Roots(rows, p)
  {
    var n := |rows| - 1;
    if c != rows[n] { RootsHold(rows[..n], p, c); }
  }

  lemma {:induction false} ChildrenHold(rows: seq<Item>, p: Parents, c: Item)
    requires c in rows && Hangs(p, c)
    ensures c.id in Children(rows, p, c.parent)
  {
    var n := |rows| - 1;
    if c != rows[n] { ChildrenHold(rows[..n], p, c); }
  }

  lemma {:induction false} AllChildrenHold(rows: seq<Item>, p: Parents, ys: seq<string>, c: Item)
    requires c in rows && Hangs(p, c) && c.parent in ys
    ensures c.id in ChildrenOfAll(rows, p, ys)
  {
    hide Children, Hangs;
    var n := |ys| - 1;
    if ys[n] == c.parent {
      ChildrenHold(rows, p, c);
    } else {
      AllChildrenHold(rows, p, ys[..n], c);
    }
  }

  /** The row whose parent counts for an id is one of the rows. */
  lemma {:induction false} LastRow(rows: seq<Item>, x: string)
    requires x in IdSet(rows)
    ensures Item(x, ParentsOf(rows)[x]) in rows
  {
    var n := |rows| - 1;
    if rows[n].id != x { LastRow(rows[..n], x); }
  }

  lemma {:induction false} LevelHolds(rows: seq<Item>, x: string, k: nat)
    requires AtDepth(IdSet(rows), Kept(ParentsOf(rows)), x, k)
    ensures x in Level(rows, ParentsOf(rows), k)
    decreases k
  {
    var p := ParentsOf(rows);
    LastRow(rows, x);
    hide ParentsOf, Hangs, Roots, ChildrenOfAll, IdSet;
    var c := Item(x, p[x]);
    if k == 0 {
      RootsHold(rows, p, c);
    } else {
      LevelHolds(rows, p[x], k - 1);
      AllChildrenHold(rows, p, Level(rows, p, k - 1), c);
    }
  }

  lemma {:induction false} ConcatHolds(parts: seq<seq<string>>, k: nat, x: string)
    requires k < |parts| && x in parts[k]
    ensures x in Concat(parts)
  {
    if k < |parts| - 1 { ConcatHolds(parts[..|parts| - 1], k, x); }
  }

  /** The forest is complete: whatever the rows (missing parents, cycles, repeated or empty
      ids), every one of them can be found below a root. */
  lemma EveryIdThere(rows: seq<Item>, x: string)
    requires x in IdSet(rows)
    ensures x in Flatten(rows, ParentsOf(rows), |rows| + 1)
  {
    var p := ParentsOf(rows);
    KeptIsAcyclic(p);
    KeptSize(rows, Kept(p).Keys);
    hide Acyclic, ParentsOf, IdSet, Level;
    var d := FindDepth(rows, Kept(p), x);
    LevelHolds(rows, x, d);
    ConcatHolds(seq(|rows| + 1, k requires k >= 0 => Level(rows, p, k)), d, x);
  }

  lemma LinksOfDistinct(rows: seq<Item>)
    requires DistinctIds(rows)
    ensures Links(rows, ParentsOf(rows), Kept(ParentsOf(rows)))
  {
    hide Hangs;
    forall i | 0 <= i < |rows|
      ensures rows[i].id in ParentsOf(rows) && ParentsOf(rows)[rows[i].id] == rows[i].parent
    {
      ParentAt(rows, i);
    }
    assert forall i :: 0 <= i < |rows| ==> rows[i] == Item(rows[i].id, rows[i].parent);
  }

  /** ... and rows with ids of their own exactly once, with nothing else beside them. */
  lemma EveryRowOnce(rows: seq<Item>)
    requires DistinctIds(rows)
    ensures multiset(Flatten(rows, ParentsOf(rows), |rows| + 1)) == multiset(Ids(rows))
  {
    var p := ParentsOf(rows);
    var kept := Kept(p);
    KeptIsAcyclic(p);
    KeptSize(rows, kept.Keys);
    LinksOfDistinct(rows);
    hide Links, DistinctIds, ParentsOf, Acyclic, Flatten;
    forall x: string ensures multiset(Flatten(rows, p, |rows| + 1))[x] == multiset(Ids(rows))[x] {
      OccursOnce(rows, p, kept, x);
    }
  }

  /** A chain of parents leads from the row back to it; a row with the empty id ends every other
      row's chain. */
  ghost predicate Circular(p: Parents, c: Item) { OnCycle(Walk(p)[c.id := c.parent], c.id) }

  lemma HangsExactly(p: Parents, c: Item)
    ensures Hangs(p, c) <==> c.parent in p && !Circular(p, c)
  {
    var w, q := Walk(p), Walk(p)[c.id := c.parent];
    if k: nat :| k > 0 && Reaches(w, c.parent, c.id, k) {
      var j := FirstArrival(w, q, c.id, c.parent, k);
      assert Reaches(q, c.id, c.id, j + 1);
    }
    if c.parent == c.id {
      assert Reaches(q, c.id, c.id, 1) by { assert Reaches(q, c.id, c.id, 0); }
    }
    if k: nat :| k > 0 && Reaches(q, c.id, c.id, k) {
      var j := FirstArrival(q, w, c.id, c.parent, k - 1);
    }
  }

  lemma {:induction false} RootsHave(rows: seq<Item>, p: Parents, x: string)
    requires x in Roots(rows, p)
    ensures exists c <- rows :: c.id == x && !Hangs(p, c)
  {
    hide Hangs;
    var n := |rows| - 1;
    if Hangs(p, rows[n]) || rows[n].id != x {
      RootsHave(rows[..n], p, x);
    } else {
      assert rows[n] in rows;
    }
  }

  /** A row is a root exactly when the parent it names is absent or the row lies on a cycle. */
  lemma RootsExactly(rows: seq<Item>, x: string)
    ensures var p := ParentsOf(rows);
            x in Roots(rows, p) <==> exists c <- rows :: c.id == x && (c.parent !in p || Circular(p, c))
  {
    var p := ParentsOf(rows);
    hide Hangs, Circular;
    if x in Roots(rows, p) {
      RootsHave(rows, p, x);
      var c :| c in rows && c.id == x && !Hangs(p, c);
      HangsExactly(p, c);
    }
    if c :| c in rows && c.id == x && (c.parent !in p || Circular(p, c)) {
      HangsExactly(p, c);
      RootsHold(rows, p, c);
    }
  }

  /** A node of the nested tree. */
  class Node {
    const id: string
    const parent: string
    var children: seq<Node>

    constructor (item: Item)
      ensures id == item.id && parent == item.parent && children == []
    {
      id, parent, children := item.id, item.parent, [];
    }
  }

  /** The nodes made for the rows, one per id. */
  ghost predicate NodesFor(nodes: map<string, Node>, p: Parents) {
    nodes.Keys == p.Keys && forall id <- nodes :: nodes[id].id == id && nodes[id].parent == p[id]
  }

  /** A list of nodes stands for a list of ids. */
  ghost predicate Stand(nodes: map<string, Node>, list: seq<Node>, ids: seq<string>) {
    |list| == |ids| && forall i :: 0 <= i < |list| ==> ids[i] in nodes && list[i] == nodes[ids[i]]
  }

  /** The links written so far are those of the first rows. */
  ghost predicate Linked(nodes: map<string, Node>, roots: seq<Node>, rows: seq<Item>, p: Parents)
    reads nodes.Values
  {
    && Stand(nodes, roots, Roots(rows, p))
    && forall id <- nodes :: Stand(nodes, nodes[id].children, Children(rows, p, id))
  }

  method MakeNodes(rows: seq<Item>) returns (nodes: map<string, Node>, p: Parents)
    ensures p == ParentsOf(rows) && NodesFor(nodes, p)
    ensures forall id <- nodes :: fresh(nodes[id]) && nodes[id].children == []
  {
    hide IdSet, DistinctIds;
    nodes, p := map[], map[];
    for i := 0 to |rows|
      invariant p == ParentsOf(rows[..i]) && NodesFor(nodes, p)
      invariant forall id <- nodes :: fresh(nodes[id]) && nodes[id].children == []
    {
      Seqs.TakeMore(rows, i);
      assert ParentsOf(rows[..i + 1]) == p[rows[i].id := rows[i].parent];
      hide ParentsOf;
      var n := new Node(rows[i]);
      nodes := nodes[rows[i].id := n];
      p := p[rows[i].id := rows[i].parent];
    }
    Seqs.TakeAll(rows);
  }

  lemma PlaceMore(rows: seq<Item>, p: Parents, c: Item)
    ensures Roots(rows + [c], p) == Roots(rows, p) + if Hangs(p, c) then [] else [c.id]
    ensures forall x :: Children(rows + [c], p, x) ==
                        Children(rows, p, x) + if Hangs(p, c) && c.parent == x then [c.id] else []
  {
    hide Hangs;
    var more := rows + [c];
    assert more[..|more| - 1] == rows;
  }

  /** Appends the next row's node to its parent's children or to the roots. */
  method Place(nodes: map<string, Node>, roots: seq<Node>, c: Item, attach: bool, ghost rows: seq<Item>,
               ghost p: Parents)
    returns (roots': seq<Node>)
    requires c.id in nodes && (attach ==> c.parent in nodes) && attach == Hangs(p, c)
    requires forall id <- nodes :: nodes[id].id == id
    requires Linked(nodes, roots, rows, p)
    modifies nodes.Values
    ensures Linked(nodes, roots', rows + [c], p)
  {
    hide Hangs, Children, Roots;
    ghost var more := rows + [c];
    PlaceMore(rows, p, c);
    if attach {
      var up := nodes[c.parent];
      up.children := up.children + [nodes[c.id]];
      forall id <- nodes ensures Stand(nodes, nodes[id].children, Children(more, p, id)) {
        assert old(Stand(nodes, nodes[id].children, Children(rows, p, id)));
        assert (nodes[id] == up) == (id == c.parent);
      }
      roots' := roots;
    } else {
      roots' := roots + [nodes[c.id]];
    }
  }

  /** The test that decides between the two. */
  method Attaches(p: Parents, c: Item) returns (attach: bool)
    ensures attach <==> Hangs(p, c)
  {
    attach := c.parent in p && c.parent != c.id;
    if attach {
      var above := IsAncestor(p, c.id, c.parent);
      attach := !above;
    }
  }

  /** Nests a flat list: first a node for each row, then each node is appended to
      its parent's children or to the roots. */
  method BuildTree(rows: seq<Item>) returns (roots: seq<Node>, nodes: map<string, Node>)
    ensures NodesFor(nodes, ParentsOf(rows)) && forall id <- nodes :: fresh(nodes[id])
    ensures Linked(nodes, roots, rows, ParentsOf(rows))
  {
    var parents;
    nodes, parents := MakeNodes(rows);
    IdSetAll(rows);
    roots := [];
    for i := 0 to |rows|
      invariant forall id <- nodes :: fresh(nodes[id])
      invariant Linked(nodes, roots, rows[..i], parents)
    {
      var c := rows[i];
      var attach := Attaches(parents, c);
      roots := Place(nodes, roots, c, attach, rows[..i], parents);
      Seqs.TakeMore(rows, i);
    }
    Seqs.TakeAll(rows);
  }

  lemma IdSetAll(rows: seq<Item>)
    ensures forall i :: 0 <= i < |rows| ==> rows[i].id in IdSet(rows)
  {
    forall i | 0 <= i < |rows| ensures rows[i].id in IdSet(rows) {
      IdSetHolds(rows, rows[i].id);
    }
  }
}
