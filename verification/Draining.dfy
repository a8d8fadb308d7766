/** The migration as the program runs it: one document after the other, a batch of at
    most a hundred in id order, batch after batch while a batch makes progress. */
module Draining {
  import opened Optional
  import opened Migration
  import Text

  // ---- one document

  /** Which calls for a document answer in this pass. */
  datatype Faults = Faults(get: bool, file: bool, move: bool, undo: bool, drop: bool)

  /** Copy, verify, switch, delete; and whether the document moved. */
  function MoveOne(h: State, d: Doc, f: Faults, pid: string, maxSize: nat): (State, bool) {
    if !f.get || !CanCopy(h, d, maxSize) || !f.file then (h, false)
    else
      var n := Filing(h, pid, Window(h.blobs[d.key], maxSize));
      if f.move && d.id in h.rows && h.rows[d.id].tenant == d.tenant then
        var m := n.(rows := h.rows[d.id := h.rows[d.id].(paper := Some(pid), key := PAPER_PREFIX + pid)]);
        (if f.drop then m.(blobs := h.blobs - {d.key}) else m, true)
      else (if f.undo then n.(papers := n.papers - {pid}) else n, false)
  }

  function OutcomeOf(ok: bool): Outcome { if ok then Done else Failed }

  /** The machine's steps for it. */
  function StepsOf(f: Faults, pid: string): seq<Step> {
    [Fetch(0, f.get), File(0, pid, OutcomeOf(f.file)), Move(0, OutcomeOf(f.move)), Undo(0, OutcomeOf(f.undo)),
     Drop(0, OutcomeOf(f.drop))]
  }

  function With(h: State, k: Worker): State { h.(workers := [k]) }

  /** What the program does to a document is a run of the machine with one migrator. */
  lemma MoveOneIsRun(h: State, d: Doc, f: Faults, pid: string, maxSize: nat)
    requires pid !in h.used
    ensures Run(With(h, Worker([d], Ready)), StepsOf(f, pid), maxSize) ==
      With(MoveOne(h, d, f, pid, maxSize).0, Worker([], Ready))
  {
    var s := StepsOf(f, pid);
    var o := With(h, Worker([d], Ready));
    FiveSteps(o, s, maxSize);
    FetchThenFile(h, d, f, pid, maxSize);
    hide Run;
    if f.get && CanCopy(h, d, maxSize) && f.file {
      FiledThenDone(h, d, f, pid, maxSize);
    }
  }

  lemma FiveSteps(o: State, s: seq<Step>, maxSize: nat)
    requires |s| == 5
    ensures Run(o, s, maxSize) ==
      Next(Next(Next(Next(Next(o, s[0], maxSize), s[1], maxSize), s[2], maxSize), s[3], maxSize), s[4], maxSize)
  {
    hide Next, Run;
    RunTo(o, s, 0, maxSize);
    RunTo(o, s, 1, maxSize);
    RunTo(o, s, 2, maxSize);
    RunTo(o, s, 3, maxSize);
    RunTo(o, s, 4, maxSize);
    assert s[..5] == s;
  }

  function InHand(h: State, d: Doc, pid: string, maxSize: nat): State
    requires CanCopy(h, d, maxSize)
  {
    Filing(h, pid, Window(h.blobs[d.key], maxSize)).(workers := [Worker([], Filed(d, pid))])
  }

  lemma FetchThenFile(h: State, d: Doc, f: Faults, pid: string, maxSize: nat)
    requires pid !in h.used
    ensures Next(Next(With(h, Worker([d], Ready)), Fetch(0, f.get), maxSize), File(0, pid, OutcomeOf(f.file)), maxSize)
      == if f.get && CanCopy(h, d, maxSize) && f.file then InHand(h, d, pid, maxSize) else With(h, Worker([], Ready))
  {
    assert [d][1..] == [];
    var m := DoFetch(With(h, Worker([d], Ready)), 0, f.get, maxSize);
    var fetched := f.get && CanCopy(h, d, maxSize);
    assert m == With(h, Worker([], if fetched then Holding(d, Window(h.blobs[d.key], maxSize)) else Ready));
  }

  lemma FiledThenDone(h: State, d: Doc, f: Faults, pid: string, maxSize: nat)
    requires f.get && CanCopy(h, d, maxSize) && f.file
    ensures Next(Next(Next(InHand(h, d, pid, maxSize), Move(0, OutcomeOf(f.move)), maxSize),
                      Undo(0, OutcomeOf(f.undo)), maxSize), Drop(0, OutcomeOf(f.drop)), maxSize)
      == With(MoveOne(h, d, f, pid, maxSize).0, Worker([], Ready))
  {
    var n := InHand(h, d, pid, maxSize);
    var m := DoMove(n, 0, OutcomeOf(f.move));
    assert n.papers == h.papers[pid := Window(h.blobs[d.key], maxSize)];
    hide Window, CanCopy;
    if f.move && d.id in h.rows && h.rows[d.id].tenant == d.tenant {
      assert DoUndo(m, 0, OutcomeOf(f.undo)) == m;
    } else {
      var u := DoUndo(m, 0, OutcomeOf(f.undo));
      assert DoDrop(u, 0, OutcomeOf(f.drop)) == u;
    }
  }

  // ---- what a pass can move

  /** A document whose every call answers and that can be copied. */
  predicate Moves(h: State, id: string, f: Faults, maxSize: nat) {
    Movable(h, id, maxSize) && f.get && f.file && f.move
  }

  /** All documents but one that moved, and what can be done with them, are as they were. */
  ghost predicate Alone(h: State, n: State, moved: set<string>, maxSize: nat) {
    && Waiting(n) == Waiting(h) - moved
    && forall id <- Waiting(n) :: AsBefore(h, n, id, maxSize)
  }

  predicate AsBefore(o: State, h: State, id: string, maxSize: nat) {
    id in o.rows && id in h.rows && h.rows[id] == o.rows[id] && Movable(h, id, maxSize) == Movable(o, id, maxSize)
  }

  ghost function Waiting(h: State): set<string> { set id | id in h.rows && Listable(h, id) }

  lemma FilingStarts(h: State, pid: string, content: Bytes)
    requires Start(h)
    ensures Start(Filing(h, pid, content))
  {
    assert PidsApart(Filing(h, pid, content));
  }

  lemma MovedStarts(h: State, n: State, d: Doc, pid: string)
    requires Start(h) && pid in h.used && Moved(h, n, d, pid) && forall id <- h.rows :: h.rows[id].paper != Some(pid)
    ensures Start(n)
  {
    assert PidsApart(n);
    forall a, b | a in n.rows && b in n.rows && SameObject(n.rows[a], n.rows[b]) ensures a == b {
      assert SameObject(h.rows[a], h.rows[b]);
    }
  }

  lemma RemovalStarts(h: State, blobs: map<string, Bytes>, pid: string)
    requires Start(h)
    ensures Start(h.(blobs := blobs)) && Start(h.(papers := h.papers - {pid}))
  {
    assert PidsApart(h.(blobs := blobs)) && PidsApart(h.(papers := h.papers - {pid}));
  }

  lemma MoveOneStarts(h: State, d: Doc, f: Faults, pid: string, maxSize: nat)
    requires Start(h) && Listable(h, d.id) && h.rows[d.id] == d && pid !in h.used
    ensures var n := MoveOne(h, d, f, pid, maxSize).0; Start(n) && n.used <= h.used + {pid}
  {
    if f.get && CanCopy(h, d, maxSize) && f.file {
      var c := Window(h.blobs[d.key], maxSize);
      var n := Filing(h, pid, c);
      assert forall id <- h.rows :: h.rows[id].paper != Some(pid);
      FilingStarts(h, pid, c);
      hide Start, Window;
      RemovalStarts(n, h.blobs, pid);
      var m := n.(rows := h.rows[d.id := h.rows[d.id].(paper := Some(pid), key := PAPER_PREFIX + pid)]);
      MovedStarts(n, m, d, pid);
      RemovalStarts(m, h.blobs - {d.key}, pid);
    }
  }

  lemma SameAlone(h: State, n: State, maxSize: nat)
    requires n.rows == h.rows && n.blobs == h.blobs
    ensures Alone(h, n, {}, maxSize)
  {
  }

  lemma MovedAlone(h: State, n: State, d: Doc, pid: string, maxSize: nat)
    requires Start(h) && Listable(h, d.id) && h.rows[d.id] == d
    requires n.rows == h.rows[d.id := d.(paper := Some(pid), key := PAPER_PREFIX + pid)]
    requires (n.blobs == h.blobs || n.blobs == h.blobs - {d.key})
    ensures Alone(h, n, {d.id}, maxSize)
  {
    assert Waiting(n) == Waiting(h) - {d.id};
    hide Window, Matches, KeyOk;
    forall id <- Waiting(n) ensures AsBefore(h, n, id, maxSize) { assert !SameObject(h.rows[id], d); }
  }

  lemma MoveOneAlone(h: State, d: Doc, f: Faults, pid: string, maxSize: nat)
    requires Start(h) && Listable(h, d.id) && h.rows[d.id] == d && pid !in h.used
    ensures var (n, ok) := MoveOne(h, d, f, pid, maxSize);
      && Start(n) && n.used <= h.used + {pid}
      && (ok <==> Moves(h, d.id, f, maxSize))
      && Alone(h, n, if ok then {d.id} else {}, maxSize)
  {
    var (n, ok) := MoveOne(h, d, f, pid, maxSize);
    MoveOneStarts(h, d, f, pid, maxSize);
    hide Start, Alone, CanCopy, Window;
    if ok { MovedAlone(h, n, d, pid, maxSize); } else { SameAlone(h, n, maxSize); }
  }

  lemma AloneAgain(o: State, h: State, n: State, a: set<string>, b: set<string>, maxSize: nat)
    requires Alone(o, h, a, maxSize) && Alone(h, n, b, maxSize)
    ensures Alone(o, n, a + b, maxSize)
  {
    forall id <- Waiting(n) ensures AsBefore(o, n, id, maxSize) {
      assert AsBefore(o, h, id, maxSize) && AsBefore(h, n, id, maxSize);
    }
  }

  // ---- what a pass leaves

  const BATCH := 100

  ghost function Before(ids: set<string>, id: string): set<string> { set b | b in ids && Text.Less(b, id) }

  /** What stays behind: all that cannot be moved, and what has a whole batch of those before it. */
  ghost function Left(waiting: set<string>, bad: set<string>): set<string> {
    set id | id in waiting && (id in bad || |Before(bad, id)| >= BATCH)
  }

  /** So a pass ends with exactly what cannot be moved if and only if nothing that can
      be moved has a hundred of those before it in id order; fewer than a hundred is enough. */
  lemma DrainsExactly(waiting: set<string>, bad: set<string>)
    requires bad <= waiting
    ensures Left(waiting, bad) == bad <==> forall id <- waiting :: id in bad || |Before(bad, id)| < BATCH
    ensures |bad| < BATCH ==> Left(waiting, bad) == bad
  {
    forall id ensures |Before(bad, id)| <= |bad| { Fewer(Before(bad, id), bad); }
    if Left(waiting, bad) == bad {
      forall id | id in waiting ensures id in bad || |Before(bad, id)| < BATCH {
        assert id in Left(waiting, bad) <==> id in bad;
      }
    }
  }

  lemma {:induction false} Fewer<T>(a: set<T>, b: set<T>)
    requires a <= b
    ensures |a| <= |b|
  {
    if a != {} {
      var x :| x in a;
      Fewer(a - {x}, b - {x});
    }
  }

  // ---- listings in id order

  ghost predicate SortedIds(ds: seq<Doc>) { forall i, j | 0 <= i < j < |ds| :: Text.Less(ds[i].id, ds[j].id) }

  ghost function Ids(ds: seq<Doc>): set<string> { set d | d in ds :: d.id }

  lemma {:induction false} IdsCount(ds: seq<Doc>)
    requires SortedIds(ds)
    ensures |Ids(ds)| == |ds|
  {
    if ds != [] {
      var front, last := ds[..|ds| - 1], ds[|ds| - 1];
      IdsCount(front);
      assert ds == front + [last];
      assert Ids(ds) == Ids(front) + {last.id};
      forall d | d in front ensures d.id != last.id { Text.LessIsAsymmetric(d.id, last.id); }
    }
  }

  /** A row in its place among those in id order. */
  function InsertById(ds: seq<Doc>, d: Doc): seq<Doc> {
    if ds == [] || Text.Less(ds[|ds| - 1].id, d.id) then ds + [d] else InsertById(ds[..|ds| - 1], d) + [ds[|ds| - 1]]
  }

  lemma {:induction false} InsertByIdSorts(ds: seq<Doc>, d: Doc)
    requires SortedIds(ds) && d.id !in Ids(ds)
    ensures SortedIds(InsertById(ds, d)) && forall e :: e in InsertById(ds, d) <==> e in ds || e == d
  {
    if ds != [] {
      var front, last := ds[..|ds| - 1], ds[|ds| - 1];
      assert ds == front + [last] && last in ds;
      if Text.Less(last.id, d.id) {
        forall e | e in front ensures Text.Less(e.id, d.id) { Text.LessIsTransitive(e.id, last.id, d.id); }
      } else {
        InsertByIdSorts(front, d);
        Text.LessIsTotal(last.id, d.id);
        forall e | e in InsertById(front, d) ensures Text.Less(e.id, last.id) {}
      }
    }
  }

  /** The first of the rows waiting, in id order. */
  ghost predicate IsBatch(h: State, ds: seq<Doc>, limit: nat) {
    && SortedIds(ds) && |ds| <= limit
    && (forall d | d in ds :: Listable(h, d.id) && h.rows[d.id] == d)
    && (forall id | Listable(h, id) && id !in Ids(ds) :: |ds| == limit && forall d | d in ds :: Text.Less(d.id, id))
  }

  /** A document of a batch has fewer documents before it than a batch holds. */
  lemma BatchIsFirst(h: State, ds: seq<Doc>, limit: nat, d: Doc)
    requires IsBatch(h, ds, limit) && d in ds
    ensures |Before(Waiting(h), d.id)| < limit
  {
    var b := Before(Waiting(h), d.id);
    forall id <- b ensures id in Ids(ds) - {d.id} {
      Text.LessIsAsymmetric(id, d.id);
    }
    Fewer(b, Ids(ds) - {d.id});
    assert d.id in Ids(ds);
    IdsCount(ds);
  }

  /** A document outside a batch has the whole batch before it. */
  lemma BatchIsBefore(h: State, ds: seq<Doc>, limit: nat, bad: set<string>, id: string)
    requires IsBatch(h, ds, limit) && Listable(h, id) && id !in Ids(ds) && Ids(ds) <= bad
    ensures |Before(bad, id)| >= limit
  {
    assert Ids(ds) <= Before(bad, id);
    Fewer(Ids(ds), Before(bad, id));
    IdsCount(ds);
  }

  /** The documents of a list that can be moved. */
  ghost function Movers(h: State, ds: seq<Doc>, faults: string -> Faults, maxSize: nat): set<string> {
    set d | d in ds && Moves(h, d.id, faults(d.id), maxSize) :: d.id
  }

  /** The documents waiting that cannot be moved. */
  ghost function Stuck(h: State, faults: string -> Faults, maxSize: nat): set<string> {
    set id | id in Waiting(h) && !Moves(h, id, faults(id), maxSize)
  }

  lemma MoversMore(o: State, ds: seq<Doc>, i: nat, faults: string -> Faults, maxSize: nat)
    requires i < |ds| && SortedIds(ds)
    ensures Movers(o, ds[..i + 1], faults, maxSize) ==
      Movers(o, ds[..i], faults, maxSize) + (if Moves(o, ds[i].id, faults(ds[i].id), maxSize) then {ds[i].id} else {})
    ensures ds[i].id !in Movers(o, ds[..i], faults, maxSize)
  {
    assert ds[..i + 1] == ds[..i] + [ds[i]];
    forall d | d in ds[..i] ensures d.id != ds[i].id { Text.LessIsAsymmetric(d.id, ds[i].id); }
  }

  /** The first i documents of a batch have been tried: those that can be moved are gone, all else is as it was. */
  ghost predicate Tried(o: State, h: State, ds: seq<Doc>, i: nat, faults: string -> Faults, maxSize: nat)
    requires i <= |ds|
  {
    Alone(o, h, Movers(o, ds[..i], faults, maxSize), maxSize)
  }

  /** The next document of a batch is still there as it was listed. */
  lemma StillWaiting(o: State, h: State, ds: seq<Doc>, i: nat, faults: string -> Faults, maxSize: nat)
    requires i < |ds| && SortedIds(ds) && Listable(o, ds[i].id) && o.rows[ds[i].id] == ds[i]
    requires Tried(o, h, ds, i, faults, maxSize)
    ensures Listable(h, ds[i].id) && h.rows[ds[i].id] == ds[i]
    ensures Movable(h, ds[i].id, maxSize) == Movable(o, ds[i].id, maxSize)
  {
    MoversMore(o, ds, i, faults, maxSize);
    assert ds[i].id in Waiting(o);
    assert ds[i].id in Waiting(h);
    assert AsBefore(o, h, ds[i].id, maxSize);
  }

  lemma TriesOne(o: State, h: State, ds: seq<Doc>, i: nat, pid: string, faults: string -> Faults, maxSize: nat)
    requires i < |ds| && SortedIds(ds) && Listable(o, ds[i].id) && o.rows[ds[i].id] == ds[i]
    requires Start(h) && pid !in h.used && Tried(o, h, ds, i, faults, maxSize)
    ensures var (n, ok) := MoveOne(h, ds[i], faults(ds[i].id), pid, maxSize);
      && Tried(o, n, ds, i + 1, faults, maxSize)
      && |Movers(o, ds[..i + 1], faults, maxSize)| == |Movers(o, ds[..i], faults, maxSize)| + (if ok then 1 else 0)
  {
    var d := ds[i];
    var (n, ok) := MoveOne(h, d, faults(d.id), pid, maxSize);
    StillWaiting(o, h, ds, i, faults, maxSize);
    MoveOneAlone(h, d, faults(d.id), pid, maxSize);
    MoversMore(o, ds, i, faults, maxSize);
    hide MoveOne, Start, Movable, Listable, Movers, Alone;
    AloneAgain(o, h, n, Movers(o, ds[..i], faults, maxSize), if ok then {d.id} else {}, maxSize);
  }

  lemma FewerLess(a: set<string>, b: set<string>, m: set<string>)
    requires a == b - m && m <= b && m != {}
    ensures |a| < |b|
  {
    var x :| x in m;
    Fewer(a, b - {x});
  }

  ghost predicate SameFaults(f: string -> Faults, g: string -> Faults) { forall id :: f(id) == g(id) }

  /** From some batch on nothing changes in what answers, the listing does, and nothing is cancelled. */
  ghost predicate Steady(p: Pass, from: nat) {
    && (forall r: nat | from <= r :: p.lists(r) && !p.stops(r))
    && (forall r: nat, id | from <= r :: p.faults(r, id) == p.faults(from, id))
  }

  lemma SameStuck(h: State, n: State, f: string -> Faults, g: string -> Faults, maxSize: nat)
    requires Alone(h, n, {}, maxSize) && SameFaults(f, g)
    ensures Waiting(n) == Waiting(h) && Stuck(n, g, maxSize) == Stuck(h, f, maxSize)
  {
    forall id <- Waiting(n) ensures Moves(n, id, g(id), maxSize) == Moves(h, id, f(id), maxSize) {
      assert AsBefore(h, n, id, maxSize);
    }
  }

  /** Nothing waits but what cannot be moved, and what has a hundred of those before it. */
  ghost predicate Halted(n: State, f: string -> Faults, maxSize: nat) {
    forall id <- Waiting(n) :: id in Stuck(n, f, maxSize) || |Before(Stuck(n, f, maxSize), id)| >= BATCH
  }

  /** A batch that moves nothing shows that. */
  lemma BatchHalts(h: State, n: State, batch: seq<Doc>, f: string -> Faults, maxSize: nat)
    requires IsBatch(h, batch, BATCH) && Alone(h, n, Movers(h, batch, f, maxSize), maxSize)
    ensures Movers(h, batch, f, maxSize) <= Waiting(h) && Waiting(n) == Waiting(h) - Movers(h, batch, f, maxSize)
    ensures |Movers(h, batch, f, maxSize)| == 0 ==> Halted(n, f, maxSize)
  {
    var movers := Movers(h, batch, f, maxSize);
    if |movers| == 0 {
      assert movers == {};
      SameStuck(h, n, f, f, maxSize);
      var bad := Stuck(n, f, maxSize);
      forall id <- Ids(batch) ensures id in bad {
        var d :| d in batch && d.id == id;
        assert Moves(h, d.id, f(d.id), maxSize) ==> d.id in movers;
      }
      forall id <- Waiting(n) | id !in bad ensures |Before(bad, id)| >= BATCH {
        BatchIsBefore(h, batch, BATCH, bad, id);
      }
    }
  }

  /** What the batches so far have left of what waited at first. */
  ghost predicate LeftSoFar(o: State, n: State, f: string -> Faults, maxSize: nat) {
    var bad := Stuck(o, f, maxSize);
    && bad <= Waiting(n) <= Waiting(o)
    && (forall id <- Waiting(n) :: AsBefore(o, n, id, maxSize))
    && (forall id <- Waiting(o) :: id in Waiting(n) || |Before(bad, id)| < BATCH)
  }

  lemma BatchDrains(o: State, h: State, n: State, batch: seq<Doc>, f: string -> Faults, g: string -> Faults,
                    maxSize: nat)
    requires IsBatch(h, batch, BATCH) && Alone(h, n, Movers(h, batch, g, maxSize), maxSize)
    requires LeftSoFar(o, h, f, maxSize) && SameFaults(f, g)
    ensures LeftSoFar(o, n, f, maxSize)
  {
    var bad := Stuck(o, f, maxSize);
    var movers := Movers(h, batch, g, maxSize);
    forall id <- movers ensures id in Waiting(h) && id !in bad && |Before(bad, id)| < BATCH {
      var d :| d in batch && d.id == id && Moves(h, d.id, g(d.id), maxSize);
      assert AsBefore(o, h, id, maxSize) && f(id) == g(id);
      BatchIsFirst(h, batch, BATCH, d);
      Fewer(Before(bad, id), Before(Waiting(h), id));
    }
    forall id <- Waiting(n) ensures AsBefore(o, n, id, maxSize) {
      assert AsBefore(o, h, id, maxSize) && AsBefore(h, n, id, maxSize);
    }
  }

  lemma HaltedIsLeft(n: State, f: string -> Faults, maxSize: nat)
    requires Halted(n, f, maxSize)
    ensures Waiting(n) == Left(Waiting(n), Stuck(n, f, maxSize))
  {
  }

  lemma DrainedIsLeft(o: State, n: State, f: string -> Faults, g: string -> Faults, maxSize: nat)
    requires LeftSoFar(o, n, f, maxSize) && Halted(n, g, maxSize) && SameFaults(f, g)
    ensures Waiting(n) == Left(Waiting(o), Stuck(o, f, maxSize))
  {
    var bad := Stuck(o, f, maxSize);
    assert Stuck(n, g, maxSize) == bad by {
      forall id <- Waiting(n) ensures Moves(n, id, g(id), maxSize) == Moves(o, id, f(id), maxSize) {
        assert AsBefore(o, n, id, maxSize) && f(id) == g(id);
      }
    }
  }

  // ---- the service

  datatype MigrateResult = MigrateResult(migrated: nat, failed: nat)

  class Service {
    const maxSize: nat
    // Which calls for a document answer, whether the listing does, and whether the context is
    // cancelled by the end, batch by batch.
    const faults: (nat, string) -> Faults
    const lists: nat -> bool
    const stops: nat -> bool
    const mint: nat -> string
    var round: nat
    var minted: nat
    var rows: map<string, Doc>
    var blobs: map<string, Bytes>
    var papers: map<string, Bytes>
    ghost var used: set<string>
    ghost var known: set<string>

    ghost function World(): State
      reads this
    {
      State(rows, blobs, papers, used, known, {}, {}, [])
    }

    ghost function Table(): Pass { Pass(faults, lists, stops, maxSize) }

    /** The stores agree with themselves, and paperless has yet to give out the ids it will. */
    ghost predicate Valid()
      reads this
    {
      && Start(World())
      && (forall n: nat | minted <= n :: mint(n) !in used)
      && (forall n: nat, m: nat | minted <= n < m :: mint(m) != mint(n))
    }

    method MigrateOne(d: Doc) returns (ok: bool)
      requires Valid() && Listable(World(), d.id) && rows[d.id] == d
      modifies this
      ensures (World(), ok) == MoveOne(old(World()), d, faults(round, d.id), mint(old(minted)), maxSize)
      ensures Valid() && round == old(round)
    {
      MoveOneAlone(World(), d, faults(round, d.id), mint(minted), maxSize);
      var f := faults(round, d.id);
      if !KeyOk(d.tenant, d.key) || !f.get || d.key !in blobs {
        return false;
      }
      var content := Window(blobs[d.key], maxSize);
      if !d.sum.Unrecorded? && d.sum != Sha(content) {
        return false;
      }
      if !f.file {
        return false;
      }
      var pid := mint(minted);
      minted, used := minted + 1, used + {pid};
      papers := papers[pid := content];
      if !f.move || d.id !in rows || rows[d.id].tenant != d.tenant {
        if f.undo {
          papers := papers - {pid};
        }
        return false;
      }
      rows := rows[d.id := rows[d.id].(paper := Some(pid), key := PAPER_PREFIX + pid)];
      if f.drop {
        blobs := blobs - {d.key};
      }
      ok := true;
    }

    /** The rows not in paperless, in id order, as many as asked for. */
    method ListUnmigrated(limit: int) returns (out: seq<Doc>)
      requires Valid()
      ensures IsBatch(World(), out, if limit <= 0 || limit > 1000 then 100 else limit)
    {
      var most := if limit <= 0 || limit > 1000 then 100 else limit;
      out := [];
      var left := rows.Keys;
      while left != {}
        invariant left <= rows.Keys && SortedIds(out)
        invariant forall d | d in out :: Listable(World(), d.id) && rows[d.id] == d && d.id !in left
        invariant forall id | Listable(World(), id) && id !in left :: rows[id] in out
        decreases |left|
      {
        var id :| id in left;
        left := left - {id};
        if rows[id].paper.None? && "tenants/" <= rows[id].key {
          InsertByIdSorts(out, rows[id]);
          out := InsertById(out, rows[id]);
        }
      }
      if |out| > most {
        FirstIsBatch(World(), out, most);
        out := out[..most];
      } else {
        FirstIsBatch(World(), out, |out|);
        assert out[..|out|] == out;
      }
    }

    /** Tries each document of a batch; a failed one stays where it is. Nothing is done when the listing fails. */
    method Migrate(limit: int) returns (err: bool, res: MigrateResult, ghost batch: seq<Doc>)
      requires Valid()
      modifies this
      ensures Valid() && round == old(round) + 1 && err == !lists(old(round))
      ensures err ==> World() == old(World()) && res == MigrateResult(0, 0)
      ensures !err ==> IsBatch(old(World()), batch, if limit <= 0 || limit > 1000 then 100 else limit)
      ensures !err ==>
        Alone(old(World()), World(), Movers(old(World()), batch, Table().In(old(round)), maxSize), maxSize)
      ensures !err ==> res.migrated == |Movers(old(World()), batch, Table().In(old(round)), maxSize)|
      ensures !err ==> res.migrated + res.failed == |batch|
    {
      ghost var o := World();
      ghost var f := Table().In(round);
      res, batch := MigrateResult(0, 0), [];
      if !lists(round) {
        round := round + 1;
        return true, res, batch;
      }
      var rows := ListUnmigrated(limit);
      err, batch := false, rows;
      assert Movers(o, rows[..0], f, maxSize) == {};
      SameAlone(o, o, maxSize);
      for i := 0 to |rows|
        invariant Valid() && round == old(round) && batch == rows && res.migrated + res.failed == i
        invariant res.migrated == |Movers(o, rows[..i], f, maxSize)|
        invariant Tried(o, World(), rows, i, f, maxSize)
      {
        var d := rows[i];
        assert d in rows;
        StillWaiting(o, World(), rows, i, f, maxSize);
        TriesOne(o, World(), rows, i, mint(minted), f, maxSize);
        hide MoveOne, Movers, Tried;
        var ok := MigrateOne(d);
        res := if ok then res.(migrated := res.migrated + 1) else res.(failed := res.failed + 1);
      }
      assert rows[..|rows|] == rows;
      round := round + 1;
    }

    /** Batch after batch while one makes progress and nothing is cancelled. Whatever fails, and
        however that changes from batch to batch, it ends after at most as many batches as
        documents wait, and one; and unless a listing failed or the pass was cancelled, what is
        left then is what the last batch could not move, and what has a hundred of those before
        it. When calls that fail go on failing, that is what could not be moved to begin with,
        and what has a hundred of those before it. */
    method Drain()
      requires Valid()
      modifies this
      ensures Valid() && Waiting(World()) <= Waiting(old(World()))
      ensures old(round) < round <= old(round) + |Waiting(old(World()))| + 1
      ensures lists(round - 1) && !stops(round - 1) ==>
        Waiting(World()) == Left(Waiting(World()), Stuck(World(), Table().In(round - 1), maxSize))
      ensures Steady(Table(), old(round)) ==>
        Waiting(World()) == Left(Waiting(old(World())), Stuck(old(World()), Table().In(old(round)), maxSize))
    {
      ghost var o, r := World(), round;
      var more := true;
      PassBegins(Table(), o, r);
      hide Valid, Going, Alone, IsBatch, Movers, Left, Waiting, Stuck, Steady;
      while more
        invariant Valid() && Going(Table(), o, r, World(), round, more)
        decreases more, |Waiting(World())|
      {
        ghost var h := World();
        var err, res, batch := Migrate(100);
        PassGoesOn(Table(), o, r, h, round - 1, World(), batch, res.migrated);
        more := !err && res.migrated != 0 && !stops(round - 1);
      }
      PassEnds(Table(), o, r, World(), round);
    }
  }

  // ---- a pass

  /** What answers, batch by batch. */
  datatype Pass = Pass(faults: (nat, string) -> Faults, lists: nat -> bool, stops: nat -> bool, maxSize: nat) {
    ghost function In(r: nat): string -> Faults { (id: string) => faults(r, id) }
  }

  /** After some batches, begun at r in state o: whether to go on, and what is known by then. */
  ghost predicate Going(p: Pass, o: State, r: nat, n: State, round: nat, more: bool) {
    && r <= round && Waiting(n) <= Waiting(o) && round + |Waiting(n)| <= r + |Waiting(o)| + (if more then 0 else 1)
    && (Steady(p, r) ==> LeftSoFar(o, n, p.In(r), p.maxSize))
    && (!more ==> r < round && (p.lists(round - 1) && !p.stops(round - 1) ==> Halted(n, p.In(round - 1), p.maxSize)))
  }

  lemma PassBegins(p: Pass, o: State, r: nat)
    ensures Going(p, o, r, o, r, true)
  {
  }

  lemma PassGoesOn(p: Pass, o: State, r: nat, h: State, round: nat, n: State, batch: seq<Doc>, migrated: nat)
    requires Going(p, o, r, h, round, true)
    requires !p.lists(round) ==> n == h && migrated == 0
    requires p.lists(round) ==>
      IsBatch(h, batch, BATCH) && Alone(h, n, Movers(h, batch, p.In(round), p.maxSize), p.maxSize)
    requires p.lists(round) ==> migrated == |Movers(h, batch, p.In(round), p.maxSize)|
    ensures Going(p, o, r, n, round + 1, p.lists(round) && migrated != 0 && !p.stops(round))
    ensures p.lists(round) && migrated != 0 ==> |Waiting(n)| < |Waiting(h)|
  {
    if p.lists(round) {
      BatchHalts(h, n, batch, p.In(round), p.maxSize);
      if Steady(p, r) { BatchDrains(o, h, n, batch, p.In(r), p.In(round), p.maxSize); }
      if migrated != 0 {
        FewerLess(Waiting(n), Waiting(h), Movers(h, batch, p.In(round), p.maxSize));
      } else {
        Fewer(Waiting(n), Waiting(h));
      }
    }
  }

  lemma PassEnds(p: Pass, o: State, r: nat, n: State, round: nat)
    requires Going(p, o, r, n, round, false)
    ensures Waiting(n) <= Waiting(o) && r < round <= r + |Waiting(o)| + 1
    ensures p.lists(round - 1) && !p.stops(round - 1) ==>
      Waiting(n) == Left(Waiting(n), Stuck(n, p.In(round - 1), p.maxSize))
    ensures Steady(p, r) ==> Waiting(n) == Left(Waiting(o), Stuck(o, p.In(r), p.maxSize))
  {
    if p.lists(round - 1) && !p.stops(round - 1) { HaltedIsLeft(n, p.In(round - 1), p.maxSize); }
    if Steady(p, r) { DrainedIsLeft(o, n, p.In(r), p.In(round - 1), p.maxSize); }
  }

  lemma FirstIsBatch(h: State, all: seq<Doc>, most: nat)
    requires most <= |all| && SortedIds(all) && (forall d | d in all :: Listable(h, d.id) && h.rows[d.id] == d)
    requires forall id | Listable(h, id) :: h.rows[id] in all && h.rows[id].id == id
    ensures IsBatch(h, all[..most], most)
    ensures forall id | Listable(h, id) && most == |all| :: id in Ids(all)
  {
    var ds := all[..most];
    forall id | Listable(h, id) && id !in Ids(ds) ensures forall d | d in ds :: Text.Less(d.id, id) {
      var j :| 0 <= j < |all| && all[j] == h.rows[id];
      assert forall i | 0 <= i < most :: ds[i] == all[i] && ds[i] in ds;
      forall d | d in ds ensures Text.Less(d.id, id) {
        var i :| 0 <= i < |ds| && ds[i] == d;
        assert all[i] == d;
      }
    }
  }
}
