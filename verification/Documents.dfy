/** What each operation on documents does, from any state of the stores, when its calls follow
    one another: a delete removes the bytes and the row, a migration moves both, an upload adds
    both; and an operation that fails puts things back. */
module Documents {
  import opened Optional
  import opened Migration

  // ---- steps in a row

  lemma {:induction false} RunFirst(h: State, step: Step, rest: seq<Step>, maxSize: nat)
    ensures Run(h, [step] + rest, maxSize) == Run(Next(h, step, maxSize), rest, maxSize)
  {
    hide Next;
    var all := [step] + rest;
    if rest == [] {
      assert all[..0] == [] && all[0] == step;
    } else {
      assert all[..|all| - 1] == [step] + rest[..|rest| - 1] && all[|all| - 1] == rest[|rest| - 1];
      RunFirst(h, step, rest[..|rest| - 1], maxSize);
    }
  }

  lemma TwoSteps(h: State, a: Step, b: Step, maxSize: nat)
    ensures Run(h, [a, b], maxSize) == Next(Next(h, a, maxSize), b, maxSize)
  {
    assert [a, b] == [a] + ([b] + []);
    RunFirst(h, a, [b] + [], maxSize);
    RunFirst(Next(h, a, maxSize), b, [], maxSize);
    hide Next;
  }

  lemma ThreeSteps(h: State, a: Step, b: Step, c: Step, maxSize: nat)
    ensures Run(h, [a, b, c], maxSize) == Next(Next(Next(h, a, maxSize), b, maxSize), c, maxSize)
  {
    assert [a, b, c] == [a] + ([b] + ([c] + []));
    RunFirst(h, a, [b] + ([c] + []), maxSize);
    RunFirst(Next(h, a, maxSize), b, [c] + [], maxSize);
    RunFirst(Next(Next(h, a, maxSize), b, maxSize), c, [], maxSize);
    hide Next;
  }

  lemma FiveSteps(h: State, a: Step, b: Step, c: Step, d: Step, e: Step, maxSize: nat)
    ensures Run(h, [a, b, c, d, e], maxSize) ==
      Next(Next(Next(Next(Next(h, a, maxSize), b, maxSize), c, maxSize), d, maxSize), e, maxSize)
  {
    assert [a, b, c, d, e] == [a] + ([b] + [c, d, e]);
    RunFirst(h, a, [b] + [c, d, e], maxSize);
    RunFirst(Next(h, a, maxSize), b, [c, d, e], maxSize);
    ThreeSteps(Next(Next(h, a, maxSize), b, maxSize), c, d, e, maxSize);
    hide Next;
  }

  predicate Ready(h: State, w: nat) { w < |h.workers| && h.workers[w] == Worker([], Phase.Ready) }

  /** The worker is done, and all else that workers do is as it was. */
  lemma Back(h: State, w: nat, k: Worker)
    requires Ready(h, w)
    ensures h.workers[w := k][w := Worker([], Phase.Ready)] == h.workers
  {
  }

  lemma SetAgain(h: State, w: nat, k: Worker, r: Worker)
    requires w < |h.workers|
    ensures h.workers[w := k][w := r] == h.workers[w := r]
  {
  }

  // ---- deleting

  predicate Deletable(h: State, id: string) {
    id in h.rows && (h.rows[id].paper.Some? || KeyOk(h.rows[id].tenant, h.rows[id].key))
  }

  lemma DeleteRuns(h: State, w: nat, id: string, outcome: Outcome, goOn: bool, ok: bool, maxSize: nat)
    requires Ready(h, w) && Deletable(h, id) && h.rows[id].id == id
    ensures var n := Run(h, [Remove(w, id), Erase(w, outcome, goOn), Unlist(w, ok)], maxSize);
      var d := h.rows[id];
      n == h.(rows := if (outcome.Done? || goOn) && ok then h.rows - {id} else h.rows,
              papers := if d.paper.Some? && !outcome.Failed? then h.papers - {d.paper.value} else h.papers,
              blobs := if d.paper.None? && !outcome.Failed? then h.blobs - {d.key} else h.blobs,
              doomed := h.doomed + {id})
  {
    ThreeSteps(h, Remove(w, id), Erase(w, outcome, goOn), Unlist(w, ok), maxSize);
    var d := h.rows[id];
    Back(h, w, Worker([], Removing(d)));
    Back(h, w, Worker([], Unlisting(d)));
    hide Run;
    var m := DoRemove(h, w, id);
    assert m == h.(doomed := h.doomed + {id}, workers := h.workers[w := Worker([], Removing(d))]);
    var n := DoErase(m, w, outcome, goOn);
    hide KeyOk;
    assert n.workers == if outcome.Done? || goOn then h.workers[w := Worker([], Unlisting(d))] else h.workers;
  }

  lemma RowsAreFiled(o: State, steps: seq<Step>, id: string, maxSize: nat)
    requires Start(o) && id in Run(o, steps, maxSize).rows
    ensures Run(o, steps, maxSize).rows[id].id == id
  {
    AlwaysInv(o, steps, maxSize);
    assert RowOk(o, Run(o, steps, maxSize), id, maxSize);
  }

  /** In any reachable state, with a worker that is free: a delete that is accepted removes the
      bytes of the row as it was read, in paperless or in the object store, then the row, and
      nothing else. If the bytes cannot be removed and the delete does not go on, the row stays. */
  lemma DeleteErases(o: State, steps: seq<Step>, w: nat, id: string, goOn: bool, maxSize: nat)
    requires Start(o) && Ready(Run(o, steps, maxSize), w) && Deletable(Run(o, steps, maxSize), id)
    ensures var h := Run(o, steps, maxSize);
      var d, n := h.rows[id], Run(h, [Remove(w, id), Erase(w, Done, goOn), Unlist(w, true)], maxSize);
      && n.rows == h.rows - {id} && Reads(n, id) == None
      && (if d.paper.Some? then n.papers == h.papers - {d.paper.value} && n.blobs == h.blobs
          else n.blobs == h.blobs - {d.key} && n.papers == h.papers)
    ensures var h := Run(o, steps, maxSize);
      var n := Run(h, [Remove(w, id), Erase(w, Failed, false), Unlist(w, true)], maxSize);
      n.rows == h.rows && n.papers == h.papers && n.blobs == h.blobs && Reads(n, id) == Reads(h, id)
  {
    RowsAreFiled(o, steps, id, maxSize);
    var h := Run(o, steps, maxSize);
    DeleteRuns(h, w, id, Done, goOn, true, maxSize);
    DeleteRuns(h, w, id, Failed, false, true, maxSize);
    hide Run;
  }

  /** A row whose key is not its tenant's is not deleted at all. */
  lemma DeleteRefused(h: State, w: nat, id: string, maxSize: nat)
    requires Ready(h, w) && !Deletable(h, id)
    ensures Next(h, Remove(w, id), maxSize) == h
  {
  }

  // ---- migrating

  lemma Lists(h: State, w: nat, id: string, maxSize: nat)
    requires Ready(h, w) && Listable(h, id)
    ensures Next(h, List(w, [id]), maxSize) == h.(workers := h.workers[w := Worker([h.rows[id]], Phase.Ready)])
  {
    assert RowsOf(h.rows, [id]) == [h.rows[id]];
  }

  lemma Fetches(h: State, w: nat, id: string, ok: bool, maxSize: nat)
    requires Ready(h, w) && Movable(h, id, maxSize)
    ensures var d := h.rows[id];
      Next(h.(workers := h.workers[w := Worker([d], Phase.Ready)]), Fetch(w, ok), maxSize) ==
      h.(workers := h.workers[w := Worker([], if ok then Holding(d, Window(h.blobs[d.key], maxSize)) else Phase.Ready)])
  {
    assert [h.rows[id]][1..] == [];
    var d := h.rows[id];
    SetAgain(h, w, Worker([d], Phase.Ready), Worker([], Holding(d, Window(h.blobs[d.key], maxSize))));
    SetAgain(h, w, Worker([d], Phase.Ready), Worker([], Phase.Ready));
    hide Window;
  }

  /** The copy is in paperless, the row not switched yet. */
  function Copied(h: State, w: nat, id: string, pid: string, maxSize: nat): State
    requires w < |h.workers| && Movable(h, id, maxSize)
  {
    var d := h.rows[id];
    h.(papers := h.papers[pid := Window(h.blobs[d.key], maxSize)], used := h.used + {pid},
       workers := h.workers[w := Worker([], Filed(d, pid))])
  }

  lemma Files(h: State, w: nat, id: string, pid: string, maxSize: nat)
    requires Ready(h, w) && Movable(h, id, maxSize) && pid !in h.used
    ensures var d := h.rows[id];
      var held := h.(workers := h.workers[w := Worker([], Holding(d, Window(h.blobs[d.key], maxSize)))]);
      && Next(held, File(w, pid, Done), maxSize) == Copied(h, w, id, pid, maxSize)
      && Next(held, File(w, pid, Failed), maxSize) == h
  {
    var d := h.rows[id];
    var k := Worker([], Holding(d, Window(h.blobs[d.key], maxSize)));
    SetAgain(h, w, k, Worker([], Filed(d, pid)));
    Back(h, w, k);
    hide Window;
  }

  /** From any state, with a worker that is free: a migration of a document that can be moved
      puts the bytes read into paperless under a new id, points the row at it, removes the object,
      and changes nothing else. */
  lemma MigrationMoves(h: State, w: nat, id: string, pid: string, maxSize: nat)
    requires Ready(h, w) && Movable(h, id, maxSize) && h.rows[id].id == id && pid !in h.used
    ensures var d := h.rows[id];
      Run(h, [List(w, [id]), Fetch(w, true), File(w, pid, Done), Move(w, Done), Drop(w, Done)], maxSize) ==
      h.(rows := h.rows[id := d.(paper := Some(pid), key := "paperless:" + pid)],
         papers := h.papers[pid := Window(h.blobs[d.key], maxSize)], blobs := h.blobs - {d.key}, used := h.used + {pid})
  {
    var d := h.rows[id];
    FiveSteps(h, List(w, [id]), Fetch(w, true), File(w, pid, Done), Move(w, Done), Drop(w, Done), maxSize);
    Lists(h, w, id, maxSize);
    Fetches(h, w, id, true, maxSize);
    Files(h, w, id, pid, maxSize);
    Switches(h, w, id, pid, maxSize);
    hide Next, Run, Window, Copied;
  }

  lemma Switches(h: State, w: nat, id: string, pid: string, maxSize: nat)
    requires Ready(h, w) && Movable(h, id, maxSize) && h.rows[id].id == id
    ensures var d := h.rows[id];
      Next(Next(Copied(h, w, id, pid, maxSize), Move(w, Done), maxSize), Drop(w, Done), maxSize) ==
      h.(rows := h.rows[id := d.(paper := Some(pid), key := "paperless:" + pid)],
         papers := h.papers[pid := Window(h.blobs[d.key], maxSize)], blobs := h.blobs - {d.key}, used := h.used + {pid})
  {
    var d := h.rows[id];
    hide Window;
    Back(h, w, Worker([], Switched(d)));
    var m := DoMove(Copied(h, w, id, pid, maxSize), w, Done);
    assert m.workers == h.workers[w := Worker([], Switched(d))];
  }

  lemma Reverts(h: State, w: nat, id: string, pid: string, maxSize: nat)
    requires Ready(h, w) && Movable(h, id, maxSize) && pid !in h.papers
    ensures Next(Next(Copied(h, w, id, pid, maxSize), Move(w, Failed), maxSize), Undo(w, Done), maxSize) ==
      h.(used := h.used + {pid})
  {
    hide Window;
    Back(h, w, Worker([], Undoing(pid)));
    var m := DoMove(Copied(h, w, id, pid, maxSize), w, Failed);
    assert m.workers == h.workers[w := Worker([], Undoing(pid))];
  }

  /** A migration whose row cannot be switched removes the copy: rows and bytes are as they were. */
  lemma MigrationReverts(h: State, w: nat, id: string, pid: string, maxSize: nat)
    requires Ready(h, w) && Movable(h, id, maxSize) && pid !in h.used && h.papers.Keys <= h.used
    ensures Run(h, [List(w, [id]), Fetch(w, true), File(w, pid, Done), Move(w, Failed), Undo(w, Done)], maxSize) ==
      h.(used := h.used + {pid})
  {
    FiveSteps(h, List(w, [id]), Fetch(w, true), File(w, pid, Done), Move(w, Failed), Undo(w, Done), maxSize);
    Lists(h, w, id, maxSize);
    Fetches(h, w, id, true, maxSize);
    Files(h, w, id, pid, maxSize);
    Reverts(h, w, id, pid, maxSize);
    hide Next, Run, Window, Copied;
  }

  // ---- uploading

  lemma UploadFiles(h: State, w: nat, id: string, tenant: string, c: Bytes, pid: string, maxSize: nat)
    requires Ready(h, w) && |c| <= maxSize && id !in h.known && pid !in h.used
    ensures Next(h, Upload(w, id, tenant, c, pid, Done), maxSize) ==
      h.(papers := h.papers[pid := c], used := h.used + {pid}, known := h.known + {id},
         workers := h.workers[w := Worker([], Uploaded(Doc(id, tenant, "paperless:" + pid, Some(pid), Sha(c)), pid))])
  {
  }

  /** An upload within the limit adds a row with the checksum of the bytes, which are then read. */
  lemma UploadAdds(h: State, w: nat, id: string, tenant: string, c: Bytes, pid: string, maxSize: nat)
    requires Ready(h, w) && |c| <= maxSize && id !in h.known && pid !in h.used && h.rows.Keys <= h.known
    ensures var n := Run(h, [Upload(w, id, tenant, c, pid, Done), Insert(w, Done)], maxSize);
      && n.rows == h.rows[id := Doc(id, tenant, "paperless:" + pid, Some(pid), Sha(c))]
      && n.papers == h.papers[pid := c] && n.blobs == h.blobs && Reads(n, id) == Some(c)
  {
    TwoSteps(h, Upload(w, id, tenant, c, pid, Done), Insert(w, Done), maxSize);
    UploadFiles(h, w, id, tenant, c, pid, maxSize);
    hide Run;
  }

  /** An upload whose row cannot be inserted removes its bytes again. */
  lemma UploadReverts(h: State, w: nat, id: string, tenant: string, c: Bytes, pid: string, maxSize: nat)
    requires Ready(h, w) && |c| <= maxSize && id !in h.known && pid !in h.used && h.papers.Keys <= h.used
    ensures Run(h, [Upload(w, id, tenant, c, pid, Done), Insert(w, Failed), Undo(w, Done)], maxSize) ==
      h.(used := h.used + {pid}, known := h.known + {id})
  {
    ThreeSteps(h, Upload(w, id, tenant, c, pid, Done), Insert(w, Failed), Undo(w, Done), maxSize);
    UploadFiles(h, w, id, tenant, c, pid, maxSize);
    Back(h, w, Worker([], Undoing(pid)));
    hide Run;
    var m := Next(h, Upload(w, id, tenant, c, pid, Done), maxSize);
    assert DoInsert(m, w, Failed).workers == h.workers[w := Worker([], Undoing(pid))];
    assert h.papers[pid := c] - {pid} == h.papers;
  }

  /** One beyond the limit is refused. */
  lemma UploadRefused(h: State, w: nat, id: string, tenant: string, c: Bytes, pid: string, o: Outcome, maxSize: nat)
    requires |c| > maxSize
    ensures Next(h, Upload(w, id, tenant, c, pid, o), maxSize) == h
  {
  }
}
