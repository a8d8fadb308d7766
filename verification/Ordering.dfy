/** The depth-limited parents-first ordering that backup uses for categories and
    locations, both to load them and, reversed, to wipe them. */
module Ordering {
  import opened Store
  import Forest
  import Seqs

  const MAX_DEPTH := 64

  function ById<B>(rows: seq<Row<B>>): (m: Table<B>)
    ensures forall k <- m :: m[k].id == k
  {
    if rows == [] then map[] else ById(rows[..|rows| - 1])[rows[|rows| - 1].id := rows[|rows| - 1]]
  }

  function Ups<B>(byId: Table<B>, up: B -> string): (p: Forest.Parents)
    ensures p.Keys == byId.Keys
  {
    map k | k in byId :: up(byId[k].body)
  }

  /** Emits the ancestors of a row, then the row, skipping what is already out;
      gives up above depth 64. */
  function Visit<B>(byId: Table<B>, up: B -> string, c: Row<B>, depth: nat, out: seq<Row<B>>): seq<Row<B>>
    requires forall k <- byId :: byId[k].id == k
    decreases MAX_DEPTH + 1 - depth
  {
    if c.id in IdSet(out) || depth > MAX_DEPTH then out
    else
      var p := up(c.body);
      var out' := if p in byId && p != c.id then Visit(byId, up, byId[p], depth + 1, out) else out;
      if c.id in IdSet(out') then out' else out' + [c]
  }

  function VisitAll<B>(byId: Table<B>, up: B -> string, rows: seq<Row<B>>): seq<Row<B>>
    requires forall k <- byId :: byId[k].id == k
  {
    if rows == [] then []
    else Visit(byId, up, rows[|rows| - 1], 0, VisitAll(byId, up, rows[..|rows| - 1]))
  }

  function Order<B>(rows: seq<Row<B>>, up: B -> string): seq<Row<B>> {
    VisitAll(ById(rows), up, rows)
  }

  method VisitRow<B>(byId: Table<B>, up: B -> string, c: Row<B>, depth: nat, done: set<string>, out: seq<Row<B>>)
    returns (done': set<string>, out': seq<Row<B>>)
    requires forall k <- byId :: byId[k].id == k
    requires done == IdSet(out)
    ensures out' == Visit(byId, up, c, depth, out)
    ensures done' == IdSet(out')
    decreases MAX_DEPTH + 1 - depth
  {
    done', out' := done, out;
    if c.id in done || depth > MAX_DEPTH {
      return;
    }
    var p := up(c.body);
    if p in byId && p != c.id {
      done', out' := VisitRow(byId, up, byId[p], depth + 1, done', out');
    }
    if c.id !in done' {
      Append(out', c);
      done', out' := done' + {c.id}, out' + [c];
    }
  }

  method IndexRows<B>(rows: seq<Row<B>>) returns (byId: Table<B>)
    ensures byId == ById(rows)
  {
    byId := map[];
    for i := 0 to |rows|
      invariant byId == ById(rows[..i])
    {
      Seqs.TakeMore(rows, i);
      byId := byId[rows[i].id := rows[i]];
    }
    Seqs.TakeAll(rows);
  }

  method OrderRows<B>(rows: seq<Row<B>>, up: B -> string) returns (out: seq<Row<B>>)
    ensures out == Order(rows, up)
  {
    var byId := IndexRows(rows);
    hide ById, Visit;
    out := [];
    var done: set<string> := {};
    for i := 0 to |rows|
      invariant out == VisitAll(byId, up, rows[..i])
      invariant done == IdSet(out)
    {
      Seqs.TakeMore(rows, i);
      done, out := VisitRow(byId, up, rows[i], 0, done, out);
    }
    Seqs.TakeAll(rows);
  }

  // ---- every id once

  lemma Append<B>(out: seq<Row<B>>, c: Row<B>)
    ensures (out + [c])[..|out|] == out && IdSet(out + [c]) == IdSet(out) + {c.id}
    ensures Distinct(out) && c.id !in IdSet(out) ==> Distinct(out + [c])
  {
    assert (out + [c])[..|out|] == out;
  }

  lemma {:induction false} VisitEmits<B>(byId: Table<B>, up: B -> string, c: Row<B>, depth: nat, out: seq<Row<B>>)
    requires forall k <- byId :: byId[k].id == k
    requires Distinct(out)
    ensures var r := Visit(byId, up, c, depth, out);
            && Distinct(r) && out <= r && IdSet(out) <= IdSet(r)
            && (depth <= MAX_DEPTH ==> c.id in IdSet(r))
            && IdSet(r) <= IdSet(out) + {c.id} + byId.Keys
    decreases MAX_DEPTH + 1 - depth
  {
    if c.id in IdSet(out) || depth > MAX_DEPTH {
    } else {
      var p := up(c.body);
      var out' := out;
      if p in byId && p != c.id {
        VisitEmits(byId, up, byId[p], depth + 1, out);
        out' := Visit(byId, up, byId[p], depth + 1, out);
      }
      Append(out', c);
    }
  }

  /** Every emitted row is one of the rows given. */
  lemma {:induction false} VisitFrom<B>(byId: Table<B>, up: B -> string, c: Row<B>, depth: nat, out: seq<Row<B>>,
                                        rows: seq<Row<B>>)
    requires forall k <- byId :: byId[k].id == k && byId[k] in rows
    requires c in rows && forall x <- out :: x in rows
    ensures forall x <- Visit(byId, up, c, depth, out) :: x in rows
    decreases MAX_DEPTH + 1 - depth
  {
    if !(c.id in IdSet(out) || depth > MAX_DEPTH) {
      var p := up(c.body);
      if p in byId && p != c.id {
        VisitFrom(byId, up, byId[p], depth + 1, out, rows);
      }
    }
  }

  lemma {:induction false} VisitAllEmits<B>(byId: Table<B>, up: B -> string, rows: seq<Row<B>>)
    requires forall k <- byId :: byId[k].id == k
    ensures var out := VisitAll(byId, up, rows);
            Distinct(out) && IdSet(rows) <= IdSet(out) <= IdSet(rows) + byId.Keys
  {
    if rows != [] {
      var n := |rows| - 1;
      VisitAllEmits(byId, up, rows[..n]);
      VisitEmits(byId, up, rows[n], 0, VisitAll(byId, up, rows[..n]));
    }
  }

  lemma {:induction false} VisitAllFrom<B>(byId: Table<B>, up: B -> string, rows: seq<Row<B>>, all: seq<Row<B>>)
    requires forall k <- byId :: byId[k].id == k && byId[k] in all
    requires forall x <- rows :: x in all
    ensures forall x <- VisitAll(byId, up, rows) :: x in all
  {
    if rows != [] {
      var n := |rows| - 1;
      VisitAllFrom(byId, up, rows[..n], all);
      VisitFrom(byId, up, rows[n], 0, VisitAll(byId, up, rows[..n]), all);
    }
  }

  lemma {:induction false} ByIdKeys<B>(rows: seq<Row<B>>)
    ensures ById(rows).Keys == IdSet(rows)
    ensures forall k <- ById(rows) :: ById(rows)[k] in rows
  {
    if rows != [] {
      ByIdKeys(rows[..|rows| - 1]);
      assert forall x <- rows[..|rows| - 1] :: x in rows;
    }
  }

  /** Whatever the rows (duplicates, orphans, cycles), the ordering emits every
      id exactly once, each with one of the given rows. */
  lemma EveryIdOnce<B>(rows: seq<Row<B>>, up: B -> string)
    ensures Distinct(Order(rows, up)) && IdSet(Order(rows, up)) == IdSet(rows)
    ensures forall x <- Order(rows, up) :: x in rows
  {
    ByIdKeys(rows);
    VisitAllEmits(ById(rows), up, rows);
    VisitAllFrom(ById(rows), up, rows, rows);
  }

  // ---- parents first

  /** Every row whose parent exists comes after that parent. */
  ghost predicate ParentsFirst<B>(p: Forest.Parents, rows: seq<Row<B>>) {
    rows == [] ||
    var n := |rows| - 1;
    && ParentsFirst(p, rows[..n])
    && (rows[n].id in p && p[rows[n].id] in p ==> p[rows[n].id] in IdSet(rows[..n]))
  }

  lemma {:induction false} ByIdAt<B>(rows: seq<Row<B>>, i: nat)
    requires Distinct(rows) && i < |rows|
    ensures rows[i].id in ById(rows) && ById(rows)[rows[i].id] == rows[i]
  {
    hide IdSet;
    var n := |rows| - 1;
    if i < n {
      ByIdAt(rows[..n], i);
      DistinctApart(rows, i, n);
    }
  }

  lemma ByIdOfDistinct<B>(rows: seq<Row<B>>)
    requires Distinct(rows)
    ensures forall r <- rows :: r.id in ById(rows) && ById(rows)[r.id] == r
  {
    hide Distinct, ById;
    forall r <- rows ensures r.id in ById(rows) && ById(rows)[r.id] == r {
      var i :| 0 <= i < |rows| && rows[i] == r;
      ByIdAt(rows, i);
    }
  }

  // ---- exactly when

  /** The chain of parents from id leaves the tree, or meets what is done, within n steps. */
  ghost predicate InReach(p: Forest.Parents, id: string, done: set<string>, n: nat)
    decreases n
  {
    id !in p || id in done || (n > 0 && InReach(p, p[id], done, n - 1))
  }

  lemma {:induction false} NotIntoItself(p: Forest.Parents, id: string, done: set<string>, n: nat)
    requires id in p && p[id] == id && id !in done
    ensures !InReach(p, id, done, n)
    decreases n
  {
    if n > 0 { NotIntoItself(p, id, done, n - 1); }
  }

  lemma ParentsFirstFront<B>(p: Forest.Parents, out: seq<Row<B>>, c: Row<B>)
    ensures ParentsFirst(p, out + [c]) <==>
      ParentsFirst(p, out) && (c.id in p && p[c.id] in p ==> p[c.id] in IdSet(out))
  {
    Append(out, c);
  }

  /** One row is emitted in its place exactly when its chain is short enough, counted from what is out already. */
  lemma {:induction false} VisitExactly<B>(byId: Table<B>, up: B -> string, c: Row<B>, depth: nat, out: seq<Row<B>>,
                                           ups: Forest.Parents)
    requires forall k <- byId :: byId[k].id == k
    requires c.id in byId && byId[c.id] == c && depth <= MAX_DEPTH && ups == Ups(byId, up)
    requires Distinct(out) && ParentsFirst(ups, out)
    ensures ParentsFirst(ups, Visit(byId, up, c, depth, out)) <==> InReach(ups, c.id, IdSet(out), MAX_DEPTH + 1 - depth)
    decreases MAX_DEPTH + 1 - depth
  {
    hide ParentsFirst, Distinct, IdSet;
    var p := up(c.body);
    if c.id !in IdSet(out) {
      if p in byId && p != c.id {
        var out' := Visit(byId, up, byId[p], depth + 1, out);
        VisitEmits(byId, up, byId[p], depth + 1, out);
        if depth < MAX_DEPTH { VisitExactly(byId, up, byId[p], depth + 1, out, ups); }
        ParentsFirstFront(ups, out', c);
        VisitReachesOut(byId, up, byId[p], depth + 1, out);
      } else {
        if p == c.id { NotIntoItself(ups, c.id, IdSet(out), MAX_DEPTH + 1 - depth); }
        ParentsFirstFront(ups, out, c);
      }
    }
  }

  lemma VisitReachesOut<B>(byId: Table<B>, up: B -> string, c: Row<B>, depth: nat, out: seq<Row<B>>)
    requires forall k <- byId :: byId[k].id == k
    ensures depth > MAX_DEPTH ==> Visit(byId, up, c, depth, out) == out
  {
  }

  /** What is emitted on the way to a row is the row and ancestors of it. */
  lemma {:induction false} VisitAncestors<B>(byId: Table<B>, up: B -> string, c: Row<B>, depth: nat, out: seq<Row<B>>,
                                             ups: Forest.Parents, x: string)
    requires forall k <- byId :: byId[k].id == k
    requires c.id in byId && byId[c.id] == c && ups == Ups(byId, up)
    requires x in IdSet(Visit(byId, up, c, depth, out)) && x !in IdSet(out)
    ensures exists k: nat :: Forest.Reaches(ups, c.id, x, k)
    decreases MAX_DEPTH + 1 - depth
  {
    if !(c.id in IdSet(out) || depth > MAX_DEPTH) {
      var p := up(c.body);
      if x == c.id {
        assert Forest.Reaches(ups, c.id, x, 0);
      } else {
        var out' := if p in byId && p != c.id then Visit(byId, up, byId[p], depth + 1, out) else out;
        Append(out', c);
        hide Visit, IdSet;
        VisitAncestors(byId, up, byId[p], depth + 1, out, ups, x);
        var k: nat :| Forest.Reaches(ups, p, x, k);
        assert Forest.Reaches(ups, c.id, x, k + 1);
      }
    }
  }

  lemma {:induction false} ParentsFirstCloses<B>(p: Forest.Parents, rows: seq<Row<B>>, id: string)
    requires ParentsFirst(p, rows) && id in IdSet(rows) && id in p && p[id] in p
    ensures p[id] in IdSet(rows)
  {
    var n := |rows| - 1;
    if id != rows[n].id { ParentsFirstCloses(p, rows[..n], id); }
  }

  lemma {:induction false} AncestorsAreOut<B>(p: Forest.Parents, rows: seq<Row<B>>, a: string, b: string, k: nat)
    requires ParentsFirst(p, rows) && a in IdSet(rows) && b in p && Forest.Reaches(p, a, b, k)
    ensures b in IdSet(rows)
    decreases k
  {
    if k > 0 {
      ParentsFirstCloses(p, rows, a);
      AncestorsAreOut(p, rows, p[a], b, k - 1);
    }
  }

  /** Some ids and all their ancestors. */
  ghost predicate Upward(p: Forest.Parents, ids: set<string>, x: string) {
    exists a <- ids, k: nat :: Forest.Reaches(p, a, x, k)
  }

  ghost function UpSet(p: Forest.Parents, ids: set<string>): set<string> { set x | x in p && Upward(p, ids, x) }

  lemma UpwardMore(p: Forest.Parents, ids: set<string>, id: string, x: string)
    ensures Upward(p, ids, x) ==> Upward(p, ids + {id}, x)
    ensures (exists k: nat :: Forest.Reaches(p, id, x, k)) ==> Upward(p, ids + {id}, x)
  {
    if a, k: nat :| a in ids && Forest.Reaches(p, a, x, k) { assert a in ids + {id}; }
    if k: nat :| Forest.Reaches(p, id, x, k) { assert id in ids + {id}; }
  }

  /** While all is in its place, what is out is what was listed and its ancestors. */
  lemma OutIsUpSet<B>(byId: Table<B>, up: B -> string, rows: seq<Row<B>>, ups: Forest.Parents)
    requires forall k <- byId :: byId[k].id == k
    requires ups == Ups(byId, up) && forall r <- rows :: r.id in byId && byId[r.id] == r
    requires ParentsFirst(ups, VisitAll(byId, up, rows))
    ensures IdSet(VisitAll(byId, up, rows)) == UpSet(ups, IdSet(rows))
  {
    var out := VisitAll(byId, up, rows);
    VisitAllEmits(byId, up, rows);
    hide VisitAll, ParentsFirst, Visit;
    forall x <- UpSet(ups, IdSet(rows)) ensures x in IdSet(out) {
      var a, k: nat :| a in IdSet(rows) && Forest.Reaches(ups, a, x, k);
      AncestorsAreOut(ups, out, a, x, k);
    }
    forall x <- IdSet(out) ensures x in UpSet(ups, IdSet(rows)) {
      EmittedIsUpward(byId, up, rows, ups, x);
      if x in IdSet(rows) { ListedIsKnown(byId, rows, x); }
    }
  }

  lemma ListedIsKnown<B>(byId: Table<B>, rows: seq<Row<B>>, x: string)
    requires x in IdSet(rows) && forall r <- rows :: r.id in byId
    ensures x in byId
  {
    InIdSet(rows, x);
    var i :| 0 <= i < |rows| && rows[i].id == x;
    assert rows[i] in rows;
  }

  lemma {:induction false} EmittedIsUpward<B>(byId: Table<B>, up: B -> string, rows: seq<Row<B>>, ups: Forest.Parents,
                                              x: string)
    requires forall k <- byId :: byId[k].id == k
    requires ups == Ups(byId, up) && forall r <- rows :: r.id in byId && byId[r.id] == r
    requires x in IdSet(VisitAll(byId, up, rows))
    ensures Upward(ups, IdSet(rows), x)
  {
    var n := |rows| - 1;
    var front, r := rows[..n], rows[n];
    assert r in rows && forall s <- front :: s in rows;
    assert IdSet(rows) == IdSet(front) + {r.id};
    UpwardMore(ups, IdSet(front), r.id, x);
    hide Visit, IdSet, Upward;
    if x in IdSet(VisitAll(byId, up, front)) {
      EmittedIsUpward(byId, up, front, ups, x);
    } else {
      VisitAncestors(byId, up, r, 0, VisitAll(byId, up, front), ups, x);
    }
  }

  /** Every row of a listing has a chain that leaves the tree, or meets an earlier row or
      an ancestor of one, within 65 steps. */
  ghost predicate Followable<B>(p: Forest.Parents, rows: seq<Row<B>>) {
    forall i | 0 <= i < |rows| :: InReach(p, rows[i].id, UpSet(p, IdSet(rows[..i])), MAX_DEPTH + 1)
  }

  lemma FollowableMore<B>(p: Forest.Parents, rows: seq<Row<B>>)
    requires rows != []
    ensures var n := |rows| - 1;
      Followable(p, rows) <==>
        Followable(p, rows[..n]) && InReach(p, rows[n].id, UpSet(p, IdSet(rows[..n])), MAX_DEPTH + 1)
  {
    var n := |rows| - 1;
    var front := rows[..n];
    assert forall i | 0 <= i < n :: front[i] == rows[i] && front[..i] == rows[..i];
    hide InReach, UpSet;
    if Followable(p, front) && InReach(p, rows[n].id, UpSet(p, IdSet(front)), MAX_DEPTH + 1) {
      forall i | 0 <= i < |rows| ensures InReach(p, rows[i].id, UpSet(p, IdSet(rows[..i])), MAX_DEPTH + 1) {
        if i < n { assert InReach(p, front[i].id, UpSet(p, IdSet(front[..i])), MAX_DEPTH + 1); }
      }
    }
    if Followable(p, rows) {
      forall i | 0 <= i < n ensures InReach(p, front[i].id, UpSet(p, IdSet(front[..i])), MAX_DEPTH + 1) {
        assert InReach(p, rows[i].id, UpSet(p, IdSet(rows[..i])), MAX_DEPTH + 1);
      }
    }
  }

  lemma {:induction false} PrefixFirst<B>(p: Forest.Parents, rows: seq<Row<B>>, front: seq<Row<B>>)
    requires ParentsFirst(p, rows) && front <= rows
    ensures ParentsFirst(p, front)
  {
    if |front| < |rows| { PrefixFirst(p, rows[..|rows| - 1], front); } else { assert front == rows; }
  }

  lemma {:induction false} VisitAllExactly<B>(byId: Table<B>, up: B -> string, rows: seq<Row<B>>, ups: Forest.Parents)
    requires forall k <- byId :: byId[k].id == k
    requires ups == Ups(byId, up) && forall r <- rows :: r.id in byId && byId[r.id] == r
    ensures ParentsFirst(ups, VisitAll(byId, up, rows)) <==> Followable(ups, rows)
  {
    if rows != [] {
      var n := |rows| - 1;
      var front := rows[..n];
      assert rows[n] in rows && forall r <- front :: r in rows;
      var out := VisitAll(byId, up, front);
      VisitAllExactly(byId, up, front, ups);
      VisitAllEmits(byId, up, front);
      VisitEmits(byId, up, rows[n], 0, out);
      FollowableMore(ups, rows);
      hide Visit, Followable, InReach, UpSet, IdSet, Distinct;
      if ParentsFirst(ups, out) {
        OutIsUpSet(byId, up, front, ups);
        VisitExactly(byId, up, rows[n], 0, out, ups);
      } else if ParentsFirst(ups, VisitAll(byId, up, rows)) {
        PrefixFirst(ups, VisitAll(byId, up, rows), out);
      }
    }
  }

  /** The exact condition, for every listing without repeated ids, cycles included: the order
      is parents first if and only if the listing is followable. */
  lemma OrderExactly<B>(rows: seq<Row<B>>, up: B -> string)
    requires Distinct(rows)
    ensures ParentsFirst(Ups(ById(rows), up), Order(rows, up)) <==> Followable(Ups(ById(rows), up), rows)
  {
    ByIdOfDistinct(rows);
    VisitAllExactly(ById(rows), up, rows, Ups(ById(rows), up));
  }

  lemma {:induction false} ClimbsInReach(p: Forest.Parents, id: string, done: set<string>, n: nat)
    ensures Forest.Climbs(p, id, n) ==> InReach(p, id, done, n)
    ensures done == {} && InReach(p, id, done, n) ==> Forest.Climbs(p, id, n)
    decreases n
  {
    if id in p && n > 0 { ClimbsInReach(p, p[id], done, n - 1); }
  }

  /** Parents come first when no row has more than 64 ancestors (which rules out cycles). */
  lemma OrderIsParentsFirst<B>(rows: seq<Row<B>>, up: B -> string)
    requires Distinct(rows)
    requires forall id <- ById(rows) :: Forest.Climbs(Ups(ById(rows), up), id, MAX_DEPTH + 1)
    ensures ParentsFirst(Ups(ById(rows), up), Order(rows, up))
  {
    var p := Ups(ById(rows), up);
    ByIdOfDistinct(rows);
    forall i | 0 <= i < |rows| ensures InReach(p, rows[i].id, UpSet(p, IdSet(rows[..i])), MAX_DEPTH + 1) {
      assert rows[i] in rows;
      ClimbsInReach(p, rows[i].id, UpSet(p, IdSet(rows[..i])), MAX_DEPTH + 1);
    }
    OrderExactly(rows, up);
  }

  /** ... and the first row of a listing has nothing to meet, so a listing that begins with a
      row of more than 64 ancestors comes out in the wrong order. */
  lemma OrderNotParentsFirst<B>(rows: seq<Row<B>>, up: B -> string)
    requires Distinct(rows) && rows != []
    requires !Forest.Climbs(Ups(ById(rows), up), rows[0].id, MAX_DEPTH + 1)
    ensures !ParentsFirst(Ups(ById(rows), up), Order(rows, up))
  {
    var p := Ups(ById(rows), up);
    assert UpSet(p, IdSet(rows[..0])) == {};
    ClimbsInReach(p, rows[0].id, {}, MAX_DEPTH + 1);
    OrderExactly(rows, up);
  }

  // ---- reversal

  function Reverse<T>(s: seq<T>): (r: seq<T>)
    ensures |r| == |s| && forall i :: 0 <= i < |s| ==> r[i] == s[|s| - 1 - i]
  {
    seq(|s|, i requires 0 <= i < |s| => s[|s| - 1 - i])
  }

  method ReverseRows<T>(s: seq<T>) returns (r: seq<T>)
    ensures r == Reverse(s)
  {
    r := [];
    for i := 0 to |s|
      invariant |r| == i && forall k :: 0 <= k < i ==> r[k] == s[i - 1 - k]
    {
      r := [s[i]] + r;
    }
  }
}
