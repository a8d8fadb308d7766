/** The documents service while documents move from the object store to paperless, as a
    state machine: any number of migrators, uploads and deletes, interleaved call by
    call, each call free to fail, before or after taking effect, and each of them to
    crash at any point. */
module Migration {
  import opened Optional

  type Byte = b: int | 0 <= b < 256
  type Bytes = seq<Byte>

  /** A checksum that tells any two contents apart, or none. */
  datatype Digest = Unrecorded | Sha(of: Bytes)

  /** A document row: where its bytes are is the paperless id, or else the storage key. */
  datatype Doc = Doc(id: string, tenant: string, key: string, paper: Option<string>, sum: Digest)

  const PAPER_PREFIX := "paperless:"

  // ---- keys

  function TenantPrefix(tenant: string): string { "tenants/" + tenant + "/" }

  predicate HasDots(s: string) { exists i | 0 <= i < |s| - 1 :: s[i] == '.' && s[i + 1] == '.' }

  predicate KeyOk(tenant: string, key: string) { TenantPrefix(tenant) <= key && !HasDots(key) }

  /** A key belongs to one tenant only, as long as tenant ids hold no slash. */
  lemma KeyOfOneTenant(s: string, t: string, key: string)
    requires KeyOk(s, key) && KeyOk(t, key) && '/' !in s && '/' !in t
    ensures s == t
  {
    assert "tenants/" + s + "/" <= key && "tenants/" + t + "/" <= key;
    PrefixPart("tenants/", s, key);
    PrefixPart("tenants/", t, key);
    UpToSlash(s, t, key[8..]);
  }

  lemma UpToSlash(s: string, t: string, rest: string)
    requires s + "/" <= rest && t + "/" <= rest && '/' !in s && '/' !in t
    ensures s == t
  {
    assert rest[|s|] == (s + "/")[|s|] == '/' && rest[|t|] == (t + "/")[|t|] == '/';
    assert forall i | 0 <= i < |s| :: rest[i] == (s + "/")[i] == s[i] && s[i] in s;
    assert forall i | 0 <= i < |t| :: rest[i] == (t + "/")[i] == t[i] && t[i] in t;
    assert |s| == |t|;
  }

  lemma PrefixPart(a: string, b: string, key: string)
    requires a + b + "/" <= key
    ensures |a| <= |key| && b + "/" <= key[|a|..]
  {
    var n := |a + b + "/"|;
    assert key[..n] == a + b + "/";
    assert key[|a|..][..|b + "/"|] == key[..n][|a|..] == b + "/";
  }

  // ---- state

  /** What a worker (a migrator, an upload or a delete) has in hand. */
  datatype Phase =
    | Ready
    | Holding(doc: Doc, content: Bytes)
    | Filed(doc: Doc, pid: string)
    | Undoing(pid: string)
    | Switched(doc: Doc)
    | Uploaded(doc: Doc, pid: string)
    | Removing(doc: Doc)
    | Unlisting(doc: Doc)

  /** A worker: the rows it listed and has yet to move, as they were then, and its phase. */
  datatype Worker = Worker(todo: seq<Doc>, phase: Phase)

  /** used: every id paperless has given out. known: every id a row ever had. doomed: the
      rows whose delete was begun. belied: the rows of which a write took effect and was
      answered with an error. */
  datatype State = State(rows: map<string, Doc>, blobs: map<string, Bytes>, papers: map<string, Bytes>,
                         used: set<string>, known: set<string>, doomed: set<string>, belied: set<string>,
                         workers: seq<Worker>)

  /** What a download of a row yields. */
  function Reads(h: State, id: string): Option<Bytes> {
    if id !in h.rows then None
    else
      var d := h.rows[id];
      if d.paper.Some? then (if d.paper.value in h.papers then Some(h.papers[d.paper.value]) else None)
      else if KeyOk(d.tenant, d.key) && d.key in h.blobs then Some(h.blobs[d.key])
      else None
  }

  /** The bytes read before a copy: at most four times the upload limit, and one more. */
  function Window(b: Bytes, maxSize: nat): Bytes { if |b| > 4 * maxSize + 1 then b[..4 * maxSize + 1] else b }

  predicate Matches(d: Doc, content: Bytes) { d.sum.Unrecorded? || d.sum == Sha(content) }

  // ---- steps

  datatype Outcome = Done | Failed | FailedAfter

  datatype Step =
    | Arrive
    | List(w: nat, ids: seq<string>)
    | Fetch(w: nat, ok: bool)
    | File(w: nat, pid: string, outcome: Outcome)
    | Move(w: nat, outcome: Outcome)
    | Undo(w: nat, outcome: Outcome)
    | Drop(w: nat, outcome: Outcome)
    | Upload(w: nat, id: string, tenant: string, content: Bytes, pid: string, outcome: Outcome)
    | Insert(w: nat, outcome: Outcome)
    | Remove(w: nat, id: string)
    | Erase(w: nat, outcome: Outcome, goOn: bool)
    | Unlist(w: nat, ok: bool)
    | Crash(w: nat)

  predicate Listable(h: State, id: string) { id in h.rows && h.rows[id].paper.None? && "tenants/" <= h.rows[id].key }

  function Set(h: State, w: nat, n: Worker): State
    requires w < |h.workers|
  {
    h.(workers := h.workers[w := n])
  }

  predicate Free(h: State, w: nat)
    requires w < |h.workers|
  {
    h.workers[w].phase.Ready? && h.workers[w].todo == []
  }

  function RowsOf(rows: map<string, Doc>, ids: seq<string>): (r: seq<Doc>)
    requires forall id <- ids :: id in rows
    ensures |r| == |ids| && forall i | 0 <= i < |ids| :: r[i] == rows[ids[i]]
  {
    if ids == [] then [] else RowsOf(rows, ids[..|ids| - 1]) + [rows[ids[|ids| - 1]]]
  }

  /** A listing: some rows not yet in paperless, in some order. */
  function DoList(h: State, w: nat, ids: seq<string>): State
    requires w < |h.workers|
  {
    if Free(h, w) && forall id <- ids :: Listable(h, id) then Set(h, w, Worker(RowsOf(h.rows, ids), Ready)) else h
  }

  function DoFetch(h: State, w: nat, ok: bool, maxSize: nat): State
    requires w < |h.workers|
  {
    var k := h.workers[w];
    if k.phase.Ready? && k.todo != [] then
      var d := k.todo[0];
      if ok && KeyOk(d.tenant, d.key) && d.key in h.blobs && Matches(d, Window(h.blobs[d.key], maxSize))
      then Set(h, w, Worker(k.todo[1..], Holding(d, Window(h.blobs[d.key], maxSize))))
      else Set(h, w, Worker(k.todo[1..], Ready))
    else h
  }

  /** Content under a new id of paperless. */
  function Filing(h: State, pid: string, content: Bytes): State {
    h.(papers := h.papers[pid := content], used := h.used + {pid})
  }

  /** Paperless never gives an id out twice. */
  function DoFile(h: State, w: nat, pid: string, outcome: Outcome): State
    requires w < |h.workers|
  {
    var k := h.workers[w];
    if k.phase.Holding? && pid !in h.used then
      match outcome
      case Done => Set(Filing(h, pid, k.phase.content), w, k.(phase := Filed(k.phase.doc, pid)))
      case FailedAfter => Set(Filing(h, pid, k.phase.content), w, k.(phase := Ready))
      case Failed => Set(h, w, k.(phase := Ready))
    else h
  }

  function Switch(h: State, d: Doc, pid: string): State
    requires d.id in h.rows
  {
    h.(rows := h.rows[d.id := h.rows[d.id].(paper := Some(pid), key := PAPER_PREFIX + pid)])
  }

  /** A write of a row that takes effect; whether the answer says so. */
  function Written(h: State, id: string, outcome: Outcome): State {
    if outcome.FailedAfter? then h.(belied := h.belied + {id}) else h
  }

  /** The row is switched; when that is reported as an error the copy is removed again. */
  function DoMove(h: State, w: nat, outcome: Outcome): State
    requires w < |h.workers|
  {
    var k := h.workers[w];
    if k.phase.Filed? then
      var d, pid := k.phase.doc, k.phase.pid;
      var found := d.id in h.rows && h.rows[d.id].tenant == d.tenant;
      Set(if found && !outcome.Failed? then Written(Switch(h, d, pid), d.id, outcome) else h, w,
          k.(phase := if found && outcome.Done? then Switched(d) else Undoing(pid)))
    else h
  }

  function DoUndo(h: State, w: nat, outcome: Outcome): State
    requires w < |h.workers|
  {
    var k := h.workers[w];
    if k.phase.Undoing? then
      Set(if outcome.Failed? then h else h.(papers := h.papers - {k.phase.pid}), w, k.(phase := Ready))
    else h
  }

  function DoDrop(h: State, w: nat, outcome: Outcome): State
    requires w < |h.workers|
  {
    var k := h.workers[w];
    if k.phase.Switched? then
      Set(if outcome.Failed? then h else h.(blobs := h.blobs - {k.phase.doc.key}), w, k.(phase := Ready))
    else h
  }

  /** An upload within the limit is filed in paperless; its row is inserted next. A minted row id is new. */
  function DoUpload(h: State, w: nat, id: string, tenant: string, content: Bytes, pid: string, outcome: Outcome,
                    maxSize: nat): State
    requires w < |h.workers|
  {
    if Free(h, w) && |content| <= maxSize && id !in h.known && pid !in h.used then
      var d := Doc(id, tenant, PAPER_PREFIX + pid, Some(pid), Sha(content));
      match outcome
      case Done => Set(Filing(h, pid, content).(known := h.known + {id}), w, Worker([], Uploaded(d, pid)))
      case FailedAfter => Filing(h, pid, content)
      case Failed => h
    else h
  }

  function DoInsert(h: State, w: nat, outcome: Outcome): State
    requires w < |h.workers|
  {
    var k := h.workers[w];
    if k.phase.Uploaded? then
      var d := k.phase.doc;
      var free := d.id !in h.rows;
      Set(if free && !outcome.Failed? then Written(h.(rows := h.rows[d.id := d]), d.id, outcome) else h, w,
          k.(phase := if free && outcome.Done? then Ready else Undoing(k.phase.pid)))
    else h
  }

  /** A delete reads the row, removes the bytes, then the row. */
  function DoRemove(h: State, w: nat, id: string): State
    requires w < |h.workers|
  {
    if Free(h, w) && id in h.rows && (h.rows[id].paper.Some? || KeyOk(h.rows[id].tenant, h.rows[id].key))
    then Set(h.(doomed := h.doomed + {id}), w, Worker([], Removing(h.rows[id]))) else h
  }

  function Without(h: State, d: Doc): State {
    if d.paper.Some? then h.(papers := h.papers - {d.paper.value}) else h.(blobs := h.blobs - {d.key})
  }

  /** goOn: the delete of an owner's documents goes on after an error, that of one document does not. */
  function DoErase(h: State, w: nat, outcome: Outcome, goOn: bool): State
    requires w < |h.workers|
  {
    var k := h.workers[w];
    if k.phase.Removing? then
      Set(if outcome.Failed? then h else Without(h, k.phase.doc), w,
          k.(phase := if outcome.Done? || goOn then Unlisting(k.phase.doc) else Ready))
    else h
  }

  function DoUnlist(h: State, w: nat, ok: bool): State
    requires w < |h.workers|
  {
    var k := h.workers[w];
    if k.phase.Unlisting? then
      var d := k.phase.doc;
      Set(if ok && d.id in h.rows && h.rows[d.id].tenant == d.tenant then h.(rows := h.rows - {d.id}) else h, w,
          k.(phase := Ready))
    else h
  }

  function Next(h: State, step: Step, maxSize: nat): State {
    if step.Arrive? then h.(workers := h.workers + [Worker([], Ready)])
    else if step.w >= |h.workers| then h
    else
      match step
      case List(w, ids) => DoList(h, w, ids)
      case Fetch(w, ok) => DoFetch(h, w, ok, maxSize)
      case File(w, pid, outcome) => DoFile(h, w, pid, outcome)
      case Move(w, outcome) => DoMove(h, w, outcome)
      case Undo(w, outcome) => DoUndo(h, w, outcome)
      case Drop(w, outcome) => DoDrop(h, w, outcome)
      case Upload(w, id, tenant, content, pid, outcome) => DoUpload(h, w, id, tenant, content, pid, outcome, maxSize)
      case Insert(w, outcome) => DoInsert(h, w, outcome)
      case Remove(w, id) => DoRemove(h, w, id)
      case Erase(w, outcome, goOn) => DoErase(h, w, outcome, goOn)
      case Unlist(w, ok) => DoUnlist(h, w, ok)
      case Crash(w) => Set(h, w, Worker([], Ready))
  }

  function Run(h: State, steps: seq<Step>, maxSize: nat): State {
    if steps == [] then h else Next(Run(h, steps[..|steps| - 1], maxSize), steps[|steps| - 1], maxSize)
  }

  // ---- where it begins

  /** No id of paperless is two rows'. */
  ghost predicate PidsApart(h: State) {
    forall a, b | a in h.rows && b in h.rows && SamePaper(h.rows[a], h.rows[b]) :: a == b
  }

  predicate SamePaper(d: Doc, e: Doc) { d.paper.Some? && d.paper == e.paper }

  predicate SameObject(d: Doc, e: Doc) { d.paper.None? && e.paper.None? && d.key == e.key }

  /** What the row store and paperless keep of themselves: rows under their ids, no object
      and no document of paperless two rows', and every id in use one that was given out. */
  ghost predicate Start(h: State) {
    && h.workers == [] && h.doomed == {} && h.belied == {}
    && h.papers.Keys <= h.used && h.rows.Keys <= h.known && PidsApart(h)
    && (forall id <- h.rows :: h.rows[id].id == id && (h.rows[id].paper.Some? ==> h.rows[id].paper.value in h.used))
    && (forall a, b | a in h.rows && b in h.rows && SameObject(h.rows[a], h.rows[b]) :: a == b)
  }

  /** A document that a migrator would move if every call succeeds. */
  predicate Movable(h: State, id: string, maxSize: nat) {
    Listable(h, id) && CanCopy(h, h.rows[id], maxSize)
  }

  predicate CanCopy(h: State, d: Doc, maxSize: nat) {
    KeyOk(d.tenant, d.key) && d.key in h.blobs && Matches(d, Window(h.blobs[d.key], maxSize))
  }

  /** Whether the whole of it fits the window it is read through. */
  predicate Fits(h: State, id: string, maxSize: nat) {
    Movable(h, id, maxSize) ==> |h.blobs[h.rows[id].key]| <= 4 * maxSize + 1
  }

  ghost predicate AllFit(h: State, maxSize: nat) { forall id :: Fits(h, id, maxSize) }

  /** A row that could be read, and that nobody began to delete, reads the same. */
  ghost predicate Kept(h: State, n: State, id: string) {
    Reads(h, id).Some? && id !in n.doomed ==> Reads(n, id) == Reads(h, id)
  }

  /** A row is never lost or altered, whatever happens, as long as no write of it that took
      effect is answered with an error. */
  ghost predicate Safe(h: State, id: string, maxSize: nat) {
    forall steps: seq<Step> | id !in Run(h, steps, maxSize).belied :: Kept(h, Run(h, steps, maxSize), id)
  }

  /** ... and whatever is answered. */
  ghost predicate SafeAnyhow(h: State, id: string, maxSize: nat) {
    forall steps: seq<Step> :: Kept(h, Run(h, steps, maxSize), id)
  }

  // ---- the invariant

  /** An original row is as it was, or it has moved to an id of paperless that holds its bytes. */
  ghost predicate RowKept(o: State, h: State, id: string, maxSize: nat)
    requires id in o.rows && id in h.rows
  {
    && (h.rows[id] == o.rows[id] ||
        (Listable(o, id) && h.rows[id].paper.Some?
         && h.rows[id].paper.value in h.used && h.rows[id].paper.value !in o.used
         && h.rows[id] == o.rows[id].(paper := h.rows[id].paper, key := h.rows[id].key)))
    && (Fits(o, id, maxSize) && Reads(o, id).Some? && id !in h.doomed && id !in h.belied ==>
          Reads(h, id) == Reads(o, id))
  }

  /** An uploaded row reads as its checksum says. */
  ghost predicate RowAdded(o: State, h: State, id: string)
    requires id in h.rows
  {
    && h.rows[id].paper.Some? && h.rows[id].paper.value in h.used && h.rows[id].paper.value !in o.used
    && (id !in h.doomed && id !in h.belied ==> Reads(h, id).Some? && h.rows[id].sum == Sha(Reads(h, id).value))
  }

  ghost predicate RowOk(o: State, h: State, id: string, maxSize: nat)
    requires id in h.rows
  {
    h.rows[id].id == id && if id in o.rows then RowKept(o, h, id, maxSize) else RowAdded(o, h, id)
  }

  /** A row a migrator once listed, as it then was. */
  predicate Snapshot(o: State, d: Doc) { Listable(o, d.id) && o.rows[d.id] == d }

  /** An id a worker holds that no row has yet. */
  ghost predicate Spare(o: State, h: State, pid: string) {
    pid in h.used && pid !in o.used && forall id <- h.rows :: h.rows[id].paper != Some(pid)
  }

  /** An id a worker is about to remove: a row has it only if a write of that row was belied. */
  ghost predicate Loose(o: State, h: State, pid: string) {
    pid in h.used && pid !in o.used && forall id <- h.rows :: h.rows[id].paper == Some(pid) ==> id in h.belied
  }

  /** What a delete is about to remove is no other row's. */
  ghost predicate Exclusive(o: State, h: State, d: Doc) {
    && d.id in h.doomed
    && (d.paper.None? ==> d.id in o.rows && o.rows[d.id] == d)
    && (d.paper.Some? ==> d.paper.value in h.used && forall id <- h.rows :: id != d.id ==> h.rows[id].paper != d.paper)
  }

  ghost predicate PhaseOk(o: State, h: State, p: Phase, maxSize: nat) {
    match p
    case Ready => true
    case Holding(d, c) => Snapshot(o, d) && Movable(o, d.id, maxSize) && c == Window(o.blobs[d.key], maxSize)
    case Filed(d, pid) => Snapshot(o, d) && Movable(o, d.id, maxSize) && Spare(o, h, pid)
      && pid in h.papers && h.papers[pid] == Window(o.blobs[d.key], maxSize)
    case Undoing(pid) => Loose(o, h, pid)
    case Switched(d) => Snapshot(o, d) && (d.id in h.rows ==> h.rows[d.id].paper.Some?)
    case Uploaded(d, pid) =>
      Spare(o, h, pid) && d.paper == Some(pid) && d.id !in o.rows && pid in h.papers && d.sum == Sha(h.papers[pid])
    case Removing(d) => Exclusive(o, h, d)
    case Unlisting(d) => d.id in h.doomed
  }

  ghost predicate WorkerOk(o: State, h: State, k: Worker, maxSize: nat) {
    (forall d <- k.todo :: Snapshot(o, d)) && PhaseOk(o, h, k.phase, maxSize)
  }

  predicate Holds(p: Phase, pid: string) { (p.Filed? || p.Uploaded?) && p.pid == pid }

  predicate Erases(p: Phase, pid: string) {
    (p.Removing? && p.doc.paper == Some(pid)) || (p.Undoing? && p.pid == pid)
  }

  /** No two workers hold the same id of paperless, and none removes what another holds. */
  ghost predicate Clash(p: Phase, q: Phase) { exists pid :: Holds(p, pid) && (Holds(q, pid) || Erases(q, pid)) }

  ghost predicate Apart(workers: seq<Worker>) {
    forall v, w | 0 <= v < |workers| && 0 <= w < |workers| && v != w :: !Clash(workers[v].phase, workers[w].phase)
  }

  ghost predicate BlobsKept(o: State, h: State) {
    forall key <- h.blobs :: key in o.blobs && h.blobs[key] == o.blobs[key]
  }

  /** Nothing but the rows whose delete was begun can be missing. */
  ghost predicate Present(o: State, h: State) { forall id <- o.rows :: id in h.rows || id in h.doomed }

  ghost predicate World(o: State, h: State, maxSize: nat) {
    && h.papers.Keys <= h.used && o.used <= h.used && o.rows.Keys <= h.known && BlobsKept(o, h) && Present(o, h)
    && PidsApart(h) && (forall id <- h.belied :: id in o.rows ==> Movable(o, id, maxSize))
    && (forall id <- h.rows :: RowOk(o, h, id, maxSize))
  }

  ghost predicate Inv(o: State, h: State, maxSize: nat) {
    && World(o, h, maxSize) && Apart(h.workers)
    && (forall w | 0 <= w < |h.workers| :: WorkerOk(o, h, h.workers[w], maxSize))
  }

  // ---- steps of one worker alone

  /** The later phase lays claim to no id the earlier did not. */
  ghost predicate NoNewClaim(p: Phase, q: Phase) {
    forall pid :: (Holds(q, pid) ==> Holds(p, pid)) && (Erases(q, pid) ==> Holds(p, pid) || Erases(p, pid))
  }

  lemma ApartSet(workers: seq<Worker>, w: nat, k: Worker)
    requires Apart(workers) && w < |workers| && NoNewClaim(workers[w].phase, k.phase)
    ensures Apart(workers[w := k])
  {
    var n := workers[w := k];
    forall u, v | 0 <= u < |n| && 0 <= v < |n| && u != v ensures !Clash(n[u].phase, n[v].phase) {
      assert !Clash(workers[u].phase, workers[v].phase) && !Clash(workers[v].phase, workers[u].phase);
      forall pid ensures !(Holds(n[u].phase, pid) && (Holds(n[v].phase, pid) || Erases(n[v].phase, pid))) {
        assert !(Holds(workers[u].phase, pid) && (Holds(workers[v].phase, pid) || Erases(workers[v].phase, pid)));
      }
    }
  }

  lemma SameWorkers(o: State, h: State, workers: seq<Worker>, maxSize: nat)
    requires World(o, h, maxSize)
    ensures World(o, h.(workers := workers), maxSize)
  {
    var n := h.(workers := workers);
    forall id <- n.rows ensures RowOk(o, n, id, maxSize) { assert RowOk(o, h, id, maxSize); }
    assert PidsApart(n) && Present(o, n);
  }

  lemma SameWorker(o: State, h: State, workers: seq<Worker>, k: Worker, maxSize: nat)
    requires WorkerOk(o, h, k, maxSize)
    ensures WorkerOk(o, h.(workers := workers), k, maxSize)
  {
  }

  /** A step of one worker: the world is right, the others are as they should be, and so is it. */
  lemma StepOf(o: State, n: State, w: nat, k: Worker, maxSize: nat)
    requires World(o, n, maxSize) && w < |n.workers| && WorkerOk(o, n, k, maxSize) && Apart(n.workers[w := k])
    requires forall v | 0 <= v < |n.workers| && v != w :: WorkerOk(o, n, n.workers[v], maxSize)
    ensures Inv(o, Set(n, w, k), maxSize)
  {
    var m := Set(n, w, k);
    SameWorkers(o, n, m.workers, maxSize);
    hide World, WorkerOk, Apart;
    forall v | 0 <= v < |m.workers| ensures WorkerOk(o, m, m.workers[v], maxSize) {
      SameWorker(o, n, m.workers, m.workers[v], maxSize);
    }
  }

  lemma SetKeeps(o: State, h: State, w: nat, k: Worker, maxSize: nat)
    requires Inv(o, h, maxSize) && w < |h.workers| && WorkerOk(o, h, k, maxSize)
    requires NoNewClaim(h.workers[w].phase, k.phase)
    ensures Inv(o, Set(h, w, k), maxSize)
  {
    hide World, WorkerOk, Apart;
    ApartSet(h.workers, w, k);
    StepOf(o, h, w, k, maxSize);
  }

  lemma RowsAreSnapshots(o: State, h: State, ids: seq<string>, maxSize: nat)
    requires World(o, h, maxSize) && forall id <- ids :: id in h.rows && Listable(h, id)
    ensures forall d <- RowsOf(h.rows, ids) :: Snapshot(o, d)
  {
    var ds := RowsOf(h.rows, ids);
    forall i | 0 <= i < |ds| ensures Snapshot(o, ds[i]) { assert Listable(h, ids[i]) && RowOk(o, h, ids[i], maxSize); }
  }

  lemma ListKeeps(o: State, h: State, w: nat, ids: seq<string>, maxSize: nat)
    requires Inv(o, h, maxSize) && w < |h.workers|
    ensures Inv(o, DoList(h, w, ids), maxSize)
  {
    if Free(h, w) && forall id <- ids :: Listable(h, id) {
      RowsAreSnapshots(o, h, ids, maxSize);
      hide Inv;
      SetKeeps(o, h, w, Worker(RowsOf(h.rows, ids), Ready), maxSize);
    }
  }

  lemma FetchKeeps(o: State, h: State, w: nat, ok: bool, maxSize: nat)
    requires Inv(o, h, maxSize) && w < |h.workers|
    ensures Inv(o, DoFetch(h, w, ok, maxSize), maxSize)
  {
    var k := h.workers[w];
    if k.phase.Ready? && k.todo != [] {
      assert WorkerOk(o, h, k, maxSize);
      assert Snapshot(o, k.todo[0]) && BlobsKept(o, h);
      hide Inv;
      SetKeeps(o, h, w, DoFetch(h, w, ok, maxSize).workers[w], maxSize);
    }
  }

  // ---- filing

  /** The ids rows point at are ones paperless gave out. */
  lemma RowPidUsed(o: State, h: State, id: string, maxSize: nat)
    requires Start(o) && World(o, h, maxSize) && id in h.rows && h.rows[id].paper.Some?
    ensures h.rows[id].paper.value in h.used
  {
    assert RowOk(o, h, id, maxSize);
  }

  lemma FilingWorld(o: State, h: State, pid: string, content: Bytes, maxSize: nat)
    requires Start(o) && World(o, h, maxSize) && pid !in h.used
    ensures World(o, Filing(h, pid, content), maxSize) && Spare(o, Filing(h, pid, content), pid)
  {
    var n := Filing(h, pid, content);
    forall id <- n.rows ensures RowOk(o, n, id, maxSize) && n.rows[id].paper != Some(pid) {
      assert RowOk(o, h, id, maxSize);
      if h.rows[id].paper.Some? { RowPidUsed(o, h, id, maxSize); }
    }
    assert PidsApart(n) && Present(o, n);
  }

  lemma FilingWorker(o: State, h: State, pid: string, content: Bytes, k: Worker, maxSize: nat)
    requires WorkerOk(o, h, k, maxSize) && pid !in h.used
    ensures WorkerOk(o, Filing(h, pid, content), k, maxSize) && !Holds(k.phase, pid) && !Erases(k.phase, pid)
  {
  }

  lemma FilingInv(o: State, h: State, pid: string, content: Bytes, maxSize: nat)
    requires Start(o) && Inv(o, h, maxSize) && pid !in h.used
    ensures Inv(o, Filing(h, pid, content), maxSize) && Spare(o, Filing(h, pid, content), pid)
    ensures forall v | 0 <= v < |h.workers| :: !Holds(h.workers[v].phase, pid) && !Erases(h.workers[v].phase, pid)
  {
    hide World, WorkerOk, Apart, Spare;
    FilingWorld(o, h, pid, content, maxSize);
    forall v | 0 <= v < |h.workers|
      ensures WorkerOk(o, Filing(h, pid, content), h.workers[v], maxSize) && !Holds(h.workers[v].phase, pid)
      ensures !Erases(h.workers[v].phase, pid)
    {
      FilingWorker(o, h, pid, content, h.workers[v], maxSize);
    }
  }

  /** A worker takes an id that no other lays claim to. */
  lemma ApartTakes(workers: seq<Worker>, w: nat, k: Worker, pid: string)
    requires Apart(workers) && w < |workers| && (forall p :: Holds(k.phase, p) ==> p == pid)
    requires (forall p :: !Erases(k.phase, p))
    requires forall v | 0 <= v < |workers| :: !Holds(workers[v].phase, pid) && !Erases(workers[v].phase, pid)
    ensures Apart(workers[w := k])
  {
    var n := workers[w := k];
    forall u, v | 0 <= u < |n| && 0 <= v < |n| && u != v ensures !Clash(n[u].phase, n[v].phase) {
      if u != w && v != w { assert !Clash(workers[u].phase, workers[v].phase); }
    }
  }

  lemma TakesPid(o: State, n: State, w: nat, k: Worker, pid: string, maxSize: nat)
    requires Inv(o, n, maxSize) && w < |n.workers| && WorkerOk(o, n, k, maxSize)
    requires (k.phase.Filed? || k.phase.Uploaded?) && k.phase.pid == pid
    requires forall v | 0 <= v < |n.workers| :: !Holds(n.workers[v].phase, pid) && !Erases(n.workers[v].phase, pid)
    ensures Inv(o, Set(n, w, k), maxSize)
  {
    hide World, WorkerOk, Apart;
    ApartTakes(n.workers, w, k, pid);
    StepOf(o, n, w, k, maxSize);
  }

  lemma FileKeeps(o: State, h: State, w: nat, pid: string, outcome: Outcome, maxSize: nat)
    requires Start(o) && Inv(o, h, maxSize) && w < |h.workers|
    ensures Inv(o, DoFile(h, w, pid, outcome), maxSize)
  {
    var k := h.workers[w];
    if k.phase.Holding? && pid !in h.used {
      assert WorkerOk(o, h, k, maxSize);
      var n := Filing(h, pid, k.phase.content);
      FilingInv(o, h, pid, k.phase.content, maxSize);
      var r := k.(phase := Ready);
      assert WorkerOk(o, h, r, maxSize) && WorkerOk(o, n, r, maxSize);
      assert WorkerOk(o, n, k.(phase := Filed(k.phase.doc, pid)), maxSize);
      hide Inv, WorkerOk, Start, Spare;
      if outcome.Done? { TakesPid(o, n, w, k.(phase := Filed(k.phase.doc, pid)), pid, maxSize); }
      else { SetKeeps(o, n, w, r, maxSize); SetKeeps(o, h, w, r, maxSize); }
    }
  }

  lemma KnowsMore(o: State, h: State, id: string, maxSize: nat)
    requires Inv(o, h, maxSize)
    ensures Inv(o, h.(known := h.known + {id}), maxSize)
  {
    var n := h.(known := h.known + {id});
    assert World(o, n, maxSize) by {
      forall x <- n.rows ensures RowOk(o, n, x, maxSize) { assert RowOk(o, h, x, maxSize); }
      assert PidsApart(n) && Present(o, n);
    }
    hide World;
    forall v | 0 <= v < |n.workers| ensures WorkerOk(o, n, n.workers[v], maxSize) {
      assert WorkerOk(o, h, h.workers[v], maxSize);
    }
  }

  lemma UploadKeeps(o: State, h: State, w: nat, id: string, tenant: string, content: Bytes, pid: string,
                    outcome: Outcome, maxSize: nat)
    requires Start(o) && Inv(o, h, maxSize) && w < |h.workers|
    ensures Inv(o, DoUpload(h, w, id, tenant, content, pid, outcome, maxSize), maxSize)
  {
    if Free(h, w) && |content| <= maxSize && id !in h.known && pid !in h.used {
      var n := Filing(h, pid, content);
      FilingInv(o, h, pid, content, maxSize);
      KnowsMore(o, n, id, maxSize);
      var m := n.(known := h.known + {id});
      var k := Worker([], Uploaded(Doc(id, tenant, PAPER_PREFIX + pid, Some(pid), Sha(content)), pid));
      assert WorkerOk(o, m, k, maxSize) by { assert id !in o.rows; }
      hide Inv, WorkerOk, Start, Spare;
      if outcome.Done? { TakesPid(o, m, w, k, pid, maxSize); }
    }
  }

  // ---- switching a row, inserting one

  predicate Moved(h: State, n: State, d: Doc, pid: string) {
    d.id in h.rows && n == Switch(h, d, pid)
  }

  lemma MovedWorld(o: State, h: State, n: State, d: Doc, pid: string, maxSize: nat)
    requires World(o, h, maxSize) && PhaseOk(o, h, Filed(d, pid), maxSize) && Moved(h, n, d, pid)
    ensures World(o, n, maxSize)
  {
    forall id <- n.rows ensures RowOk(o, n, id, maxSize) {
      assert RowOk(o, h, id, maxSize);
    }
    assert PidsApart(n) && Present(o, n);
  }

  lemma MovedWorker(o: State, h: State, n: State, d: Doc, pid: string, k: Worker, maxSize: nat)
    requires WorkerOk(o, h, k, maxSize) && Moved(h, n, d, pid) && !Holds(k.phase, pid) && !Erases(k.phase, pid)
    ensures WorkerOk(o, n, k, maxSize)
  {
  }

  lemma OthersApart(workers: seq<Worker>, w: nat, pid: string)
    requires Apart(workers) && w < |workers| && Holds(workers[w].phase, pid)
    ensures forall v | 0 <= v < |workers| && v != w :: !Holds(workers[v].phase, pid) && !Erases(workers[v].phase, pid)
  {
    forall v | 0 <= v < |workers| && v != w ensures !Holds(workers[v].phase, pid) && !Erases(workers[v].phase, pid) {
      assert !Clash(workers[w].phase, workers[v].phase);
    }
  }

  /** A row of which a write is belied is promised less. */
  lemma BeliedWorld(o: State, h: State, id: string, maxSize: nat)
    requires World(o, h, maxSize) && (id in o.rows ==> Movable(o, id, maxSize))
    ensures World(o, h.(belied := h.belied + {id}), maxSize)
  {
    var n := h.(belied := h.belied + {id});
    forall x <- n.rows ensures RowOk(o, n, x, maxSize) { assert RowOk(o, h, x, maxSize); }
    assert PidsApart(n) && Present(o, n);
  }

  lemma BeliedWorker(o: State, h: State, id: string, k: Worker, maxSize: nat)
    requires WorkerOk(o, h, k, maxSize)
    ensures WorkerOk(o, h.(belied := h.belied + {id}), k, maxSize)
  {
  }

  /** A worker that holds an id writes it into a row; the others are as they were. */
  lemma WritesRow(o: State, h: State, n: State, w: nat, id: string, outcome: Outcome, r: Worker, maxSize: nat)
    requires World(o, n, maxSize) && n.workers == h.workers && w < |h.workers| && Apart(h.workers)
    requires forall v | 0 <= v < |h.workers| && v != w :: WorkerOk(o, n, h.workers[v], maxSize)
    requires (id in o.rows ==> Movable(o, id, maxSize)) && NoNewClaim(h.workers[w].phase, r.phase)
    requires WorkerOk(o, Written(n, id, outcome), r, maxSize)
    ensures Inv(o, Set(Written(n, id, outcome), w, r), maxSize)
  {
    hide World, WorkerOk, Apart, Movable;
    var m := Written(n, id, outcome);
    if outcome.FailedAfter? {
      BeliedWorld(o, n, id, maxSize);
      forall v | 0 <= v < |h.workers| && v != w ensures WorkerOk(o, m, h.workers[v], maxSize) {
        BeliedWorker(o, n, id, h.workers[v], maxSize);
      }
    }
    ApartSet(h.workers, w, r);
    StepOf(o, m, w, r, maxSize);
  }

  lemma MoveKeeps(o: State, h: State, w: nat, outcome: Outcome, maxSize: nat)
    requires Inv(o, h, maxSize) && w < |h.workers|
    ensures Inv(o, DoMove(h, w, outcome), maxSize)
  {
    var k := h.workers[w];
    if k.phase.Filed? {
      assert WorkerOk(o, h, k, maxSize);
      var d, pid := k.phase.doc, k.phase.pid;
      if !outcome.Failed? && d.id in h.rows && h.rows[d.id].tenant == d.tenant {
        var n := Switch(h, d, pid);
        var r := k.(phase := if outcome.Done? then Switched(d) else Undoing(pid));
        assert WorkerOk(o, Written(n, d.id, outcome), r, maxSize);
        MovedWorld(o, h, n, d, pid, maxSize);
        hide World, WorkerOk, Apart, Movable;
        OthersApart(h.workers, w, pid);
        forall v | 0 <= v < |n.workers| && v != w ensures WorkerOk(o, n, n.workers[v], maxSize) {
          MovedWorker(o, h, n, d, pid, h.workers[v], maxSize);
        }
        WritesRow(o, h, n, w, d.id, outcome, r, maxSize);
      } else {
        assert WorkerOk(o, h, k.(phase := Undoing(pid)), maxSize);
        hide Inv;
        SetKeeps(o, h, w, k.(phase := Undoing(pid)), maxSize);
      }
    }
  }

  predicate Inserted(h: State, n: State, d: Doc) { d.id !in h.rows && n == h.(rows := h.rows[d.id := d]) }

  lemma InsertedWorld(o: State, h: State, n: State, d: Doc, pid: string, maxSize: nat)
    requires World(o, h, maxSize) && PhaseOk(o, h, Uploaded(d, pid), maxSize) && Inserted(h, n, d)
    ensures World(o, n, maxSize)
  {
    forall id <- n.rows ensures RowOk(o, n, id, maxSize) { if id != d.id { assert RowOk(o, h, id, maxSize); } }
    assert PidsApart(n) && Present(o, n);
  }

  lemma InsertedWorker(o: State, h: State, n: State, d: Doc, pid: string, k: Worker, maxSize: nat)
    requires WorkerOk(o, h, k, maxSize) && Inserted(h, n, d) && d.paper == Some(pid) && d.id !in o.rows
    requires !Holds(k.phase, pid) && !Erases(k.phase, pid)
    ensures WorkerOk(o, n, k, maxSize)
  {
  }

  lemma InsertKeeps(o: State, h: State, w: nat, outcome: Outcome, maxSize: nat)
    requires Inv(o, h, maxSize) && w < |h.workers|
    ensures Inv(o, DoInsert(h, w, outcome), maxSize)
  {
    var k := h.workers[w];
    if k.phase.Uploaded? {
      assert WorkerOk(o, h, k, maxSize);
      var d, pid := k.phase.doc, k.phase.pid;
      if !outcome.Failed? && d.id !in h.rows {
        var n := h.(rows := h.rows[d.id := d]);
        var r := k.(phase := if outcome.Done? then Ready else Undoing(pid));
        assert WorkerOk(o, Written(n, d.id, outcome), r, maxSize);
        InsertedWorld(o, h, n, d, pid, maxSize);
        hide World, WorkerOk, Apart;
        OthersApart(h.workers, w, pid);
        forall v | 0 <= v < |n.workers| && v != w ensures WorkerOk(o, n, n.workers[v], maxSize) {
          InsertedWorker(o, h, n, d, pid, h.workers[v], maxSize);
        }
        WritesRow(o, h, n, w, d.id, outcome, r, maxSize);
      } else {
        assert WorkerOk(o, h, k.(phase := Undoing(pid)), maxSize);
        hide Inv;
        SetKeeps(o, h, w, k.(phase := Undoing(pid)), maxSize);
      }
    }
  }

  // ---- removing bytes

  function NoPaper(h: State, pid: string): State { h.(papers := h.papers - {pid}) }

  function NoBlob(h: State, key: string): State { h.(blobs := h.blobs - {key}) }

  /** A row nothing is promised of any more. */
  predicate Forsaken(h: State, id: string) { id in h.doomed || id in h.belied }

  /** Content of paperless may go when no row has it but such a one. */
  lemma NoPaperWorld(o: State, h: State, pid: string, maxSize: nat)
    requires World(o, h, maxSize) && forall id <- h.rows :: h.rows[id].paper == Some(pid) ==> Forsaken(h, id)
    ensures World(o, NoPaper(h, pid), maxSize)
  {
    var n := NoPaper(h, pid);
    forall id <- n.rows ensures RowOk(o, n, id, maxSize) { assert RowOk(o, h, id, maxSize); }
    assert PidsApart(n) && Present(o, n);
  }

  lemma NoPaperWorker(o: State, h: State, pid: string, k: Worker, maxSize: nat)
    requires WorkerOk(o, h, k, maxSize) && !Holds(k.phase, pid)
    ensures WorkerOk(o, NoPaper(h, pid), k, maxSize)
  {
  }

  /** An object may go when the row that had it has moved, is gone or is being deleted: it is no other row's. */
  lemma NoBlobWorld(o: State, h: State, d: Doc, maxSize: nat)
    requires Start(o) && World(o, h, maxSize) && d.id in o.rows && o.rows[d.id] == d && d.paper.None?
    requires d.id in h.doomed || d.id !in h.rows || h.rows[d.id].paper.Some?
    ensures World(o, NoBlob(h, d.key), maxSize)
  {
    var n := NoBlob(h, d.key);
    forall id <- n.rows ensures RowOk(o, n, id, maxSize) {
      assert RowOk(o, h, id, maxSize);
      assert id in o.rows && id != d.id ==> !SameObject(o.rows[id], d);
    }
    assert PidsApart(n) && Present(o, n);
  }

  lemma NoBlobWorker(o: State, h: State, key: string, k: Worker, maxSize: nat)
    requires WorkerOk(o, h, k, maxSize)
    ensures WorkerOk(o, NoBlob(h, key), k, maxSize)
  {
  }

  /** The worker that removes content of paperless, and what it does next. */
  lemma RemovesPaper(o: State, h: State, w: nat, pid: string, r: Worker, maxSize: nat)
    requires Inv(o, h, maxSize) && w < |h.workers|
    requires forall id <- h.rows :: h.rows[id].paper == Some(pid) ==> Forsaken(h, id)
    requires forall v | 0 <= v < |h.workers| && v != w :: !Holds(h.workers[v].phase, pid)
    requires WorkerOk(o, NoPaper(h, pid), r, maxSize) && NoNewClaim(h.workers[w].phase, r.phase)
    ensures Inv(o, Set(NoPaper(h, pid), w, r), maxSize)
  {
    hide World, WorkerOk, Apart;
    NoPaperWorld(o, h, pid, maxSize);
    ApartSet(h.workers, w, r);
    forall v | 0 <= v < |h.workers| && v != w ensures WorkerOk(o, NoPaper(h, pid), h.workers[v], maxSize) {
      NoPaperWorker(o, h, pid, h.workers[v], maxSize);
    }
    StepOf(o, NoPaper(h, pid), w, r, maxSize);
  }

  lemma RemovesBlob(o: State, h: State, w: nat, d: Doc, r: Worker, maxSize: nat)
    requires Start(o) && Inv(o, h, maxSize) && w < |h.workers| && d.id in o.rows && o.rows[d.id] == d && d.paper.None?
    requires d.id in h.doomed || d.id !in h.rows || h.rows[d.id].paper.Some?
    requires WorkerOk(o, NoBlob(h, d.key), r, maxSize) && NoNewClaim(h.workers[w].phase, r.phase)
    ensures Inv(o, Set(NoBlob(h, d.key), w, r), maxSize)
  {
    hide World, WorkerOk, Apart, Start;
    NoBlobWorld(o, h, d, maxSize);
    ApartSet(h.workers, w, r);
    forall v | 0 <= v < |h.workers| && v != w ensures WorkerOk(o, NoBlob(h, d.key), h.workers[v], maxSize) {
      NoBlobWorker(o, h, d.key, h.workers[v], maxSize);
    }
    StepOf(o, NoBlob(h, d.key), w, r, maxSize);
  }

  lemma UndoKeeps(o: State, h: State, w: nat, outcome: Outcome, maxSize: nat)
    requires Inv(o, h, maxSize) && w < |h.workers|
    ensures Inv(o, DoUndo(h, w, outcome), maxSize)
  {
    var k := h.workers[w];
    if k.phase.Undoing? {
      assert WorkerOk(o, h, k, maxSize);
      var pid, r := k.phase.pid, k.(phase := Ready);
      assert WorkerOk(o, h, r, maxSize) && WorkerOk(o, NoPaper(h, pid), r, maxSize);
      ErasedIsNotHeld(h.workers, w, pid);
      hide Inv, WorkerOk;
      SetKeeps(o, h, w, r, maxSize);
      RemovesPaper(o, h, w, pid, r, maxSize);
    }
  }

  lemma DropKeeps(o: State, h: State, w: nat, outcome: Outcome, maxSize: nat)
    requires Start(o) && Inv(o, h, maxSize) && w < |h.workers|
    ensures Inv(o, DoDrop(h, w, outcome), maxSize)
  {
    var k := h.workers[w];
    if k.phase.Switched? {
      assert WorkerOk(o, h, k, maxSize);
      var d, r := k.phase.doc, k.(phase := Ready);
      assert WorkerOk(o, h, r, maxSize) && WorkerOk(o, NoBlob(h, d.key), r, maxSize);
      hide Inv, WorkerOk, Start;
      SetKeeps(o, h, w, r, maxSize);
      RemovesBlob(o, h, w, d, r, maxSize);
    }
  }

  // ---- deleting a row

  lemma DoomedWorld(o: State, h: State, id: string, maxSize: nat)
    requires World(o, h, maxSize)
    ensures World(o, h.(doomed := h.doomed + {id}), maxSize)
  {
    var n := h.(doomed := h.doomed + {id});
    forall x <- n.rows ensures RowOk(o, n, x, maxSize) { assert RowOk(o, h, x, maxSize); }
    assert PidsApart(n) && Present(o, n);
  }

  lemma DoomedWorker(o: State, h: State, id: string, k: Worker, maxSize: nat)
    requires WorkerOk(o, h, k, maxSize)
    ensures WorkerOk(o, h.(doomed := h.doomed + {id}), k, maxSize)
  {
  }

  /** What a row has is held by no worker. */
  lemma RowIsNotHeld(o: State, h: State, id: string, pid: string, k: Worker, maxSize: nat)
    requires id in h.rows && h.rows[id].paper == Some(pid) && WorkerOk(o, h, k, maxSize)
    ensures !Holds(k.phase, pid)
  {
  }

  lemma ApartRemoves(workers: seq<Worker>, w: nat, d: Doc)
    requires Apart(workers) && w < |workers|
    requires forall v | 0 <= v < |workers| && d.paper.Some? :: !Holds(workers[v].phase, d.paper.value)
    ensures Apart(workers[w := Worker([], Removing(d))])
  {
    var n := workers[w := Worker([], Removing(d))];
    forall u, v | 0 <= u < |n| && 0 <= v < |n| && u != v ensures !Clash(n[u].phase, n[v].phase) {
      if u != w && v != w { assert !Clash(workers[u].phase, workers[v].phase); }
    }
  }

  lemma RemoveKeeps(o: State, h: State, w: nat, id: string, maxSize: nat)
    requires Start(o) && Inv(o, h, maxSize) && w < |h.workers|
    ensures Inv(o, DoRemove(h, w, id), maxSize)
  {
    if Free(h, w) && id in h.rows && (h.rows[id].paper.Some? || KeyOk(h.rows[id].tenant, h.rows[id].key)) {
      var d, n := h.rows[id], h.(doomed := h.doomed + {id});
      assert RowOk(o, h, id, maxSize);
      assert Exclusive(o, n, d) by {
        if d.paper.Some? {
          RowPidUsed(o, h, id, maxSize);
          forall x <- n.rows | x != id ensures n.rows[x].paper != d.paper { assert !SamePaper(h.rows[x], d); }
        }
      }
      forall v | 0 <= v < |h.workers| && d.paper.Some? ensures !Holds(h.workers[v].phase, d.paper.value) {
        RowIsNotHeld(o, h, id, d.paper.value, h.workers[v], maxSize);
      }
      DoomedWorld(o, h, id, maxSize);
      hide World, Start, Apart;
      forall v | 0 <= v < |h.workers| ensures WorkerOk(o, n, h.workers[v], maxSize) {
        DoomedWorker(o, h, id, h.workers[v], maxSize);
      }
      ApartRemoves(h.workers, w, d);
      StepOf(o, n, w, Worker([], Removing(d)), maxSize);
    }
  }

  lemma EraseKeeps(o: State, h: State, w: nat, outcome: Outcome, goOn: bool, maxSize: nat)
    requires Start(o) && Inv(o, h, maxSize) && w < |h.workers|
    ensures Inv(o, DoErase(h, w, outcome, goOn), maxSize)
  {
    var k := h.workers[w];
    if k.phase.Removing? {
      assert WorkerOk(o, h, k, maxSize);
      var d := k.phase.doc;
      var r := k.(phase := if outcome.Done? || goOn then Unlisting(d) else Ready);
      assert WorkerOk(o, h, r, maxSize) && WorkerOk(o, Without(h, d), r, maxSize);
      if outcome.Failed? {
        hide Inv, WorkerOk;
        SetKeeps(o, h, w, r, maxSize);
      } else if d.paper.Some? {
        ErasedIsNotHeld(h.workers, w, d.paper.value);
        hide Inv, WorkerOk;
        RemovesPaper(o, h, w, d.paper.value, r, maxSize);
      } else {
        hide Inv, WorkerOk, Start;
        RemovesBlob(o, h, w, d, r, maxSize);
      }
    }
  }

  lemma ErasedIsNotHeld(workers: seq<Worker>, w: nat, pid: string)
    requires Apart(workers) && w < |workers| && Erases(workers[w].phase, pid)
    ensures forall v | 0 <= v < |workers| && v != w :: !Holds(workers[v].phase, pid)
  {
    forall v | 0 <= v < |workers| && v != w ensures !Holds(workers[v].phase, pid) {
      assert !Clash(workers[v].phase, workers[w].phase);
    }
  }

  lemma UnlistedWorld(o: State, h: State, id: string, maxSize: nat)
    requires World(o, h, maxSize) && id in h.doomed
    ensures World(o, h.(rows := h.rows - {id}), maxSize)
  {
    var n := h.(rows := h.rows - {id});
    forall x <- n.rows ensures RowOk(o, n, x, maxSize) { assert RowOk(o, h, x, maxSize); }
    assert PidsApart(n) && Present(o, n);
  }

  lemma UnlistedWorker(o: State, h: State, id: string, k: Worker, maxSize: nat)
    requires WorkerOk(o, h, k, maxSize)
    ensures WorkerOk(o, h.(rows := h.rows - {id}), k, maxSize)
  {
  }

  lemma UnlistKeeps(o: State, h: State, w: nat, ok: bool, maxSize: nat)
    requires Inv(o, h, maxSize) && w < |h.workers|
    ensures Inv(o, DoUnlist(h, w, ok), maxSize)
  {
    var k := h.workers[w];
    if k.phase.Unlisting? {
      assert WorkerOk(o, h, k, maxSize);
      var d, r := k.phase.doc, k.(phase := Ready);
      var n := h.(rows := h.rows - {d.id});
      assert WorkerOk(o, h, r, maxSize) && WorkerOk(o, n, r, maxSize);
      UnlistedWorld(o, h, d.id, maxSize);
      hide World, WorkerOk, Apart;
      SetKeeps(o, h, w, r, maxSize);
      ApartSet(h.workers, w, r);
      forall v | 0 <= v < |h.workers| ensures WorkerOk(o, n, h.workers[v], maxSize) {
        UnlistedWorker(o, h, d.id, h.workers[v], maxSize);
      }
      StepOf(o, n, w, r, maxSize);
    }
  }

  // ---- every run

  lemma ArriveKeeps(o: State, h: State, maxSize: nat)
    requires Inv(o, h, maxSize)
    ensures Inv(o, h.(workers := h.workers + [Worker([], Ready)]), maxSize)
  {
    var n := h.(workers := h.workers + [Worker([], Ready)]);
    SameWorkers(o, h, n.workers, maxSize);
    forall v | 0 <= v < |n.workers| ensures WorkerOk(o, n, n.workers[v], maxSize) {
      if v < |h.workers| { SameWorker(o, h, n.workers, h.workers[v], maxSize); }
    }
    forall u, v | 0 <= u < |n.workers| && 0 <= v < |n.workers| && u != v
      ensures !Clash(n.workers[u].phase, n.workers[v].phase)
    {
      if u < |h.workers| && v < |h.workers| { assert !Clash(h.workers[u].phase, h.workers[v].phase); }
    }
  }

  lemma StepKeeps(o: State, h: State, step: Step, maxSize: nat)
    requires Start(o) && Inv(o, h, maxSize)
    ensures Inv(o, Next(h, step, maxSize), maxSize)
  {
    hide Inv, Start, DoList, DoFetch, DoFile, DoMove, DoUndo, DoDrop, DoUpload, DoInsert, DoRemove, DoErase, DoUnlist;
    if step.Arrive? {
      ArriveKeeps(o, h, maxSize);
    } else if step.w < |h.workers| {
      match step
      case List(w, ids) => ListKeeps(o, h, w, ids, maxSize);
      case Fetch(w, ok) => FetchKeeps(o, h, w, ok, maxSize);
      case File(w, pid, outcome) => FileKeeps(o, h, w, pid, outcome, maxSize);
      case Move(w, outcome) => MoveKeeps(o, h, w, outcome, maxSize);
      case Undo(w, outcome) => UndoKeeps(o, h, w, outcome, maxSize);
      case Drop(w, outcome) => DropKeeps(o, h, w, outcome, maxSize);
      case Upload(w, id, tenant, content, pid, outcome) =>
        UploadKeeps(o, h, w, id, tenant, content, pid, outcome, maxSize);
      case Insert(w, outcome) => InsertKeeps(o, h, w, outcome, maxSize);
      case Remove(w, id) => RemoveKeeps(o, h, w, id, maxSize);
      case Erase(w, outcome, goOn) => EraseKeeps(o, h, w, outcome, goOn, maxSize);
      case Unlist(w, ok) => UnlistKeeps(o, h, w, ok, maxSize);
      case Crash(w) => SetKeeps(o, h, w, Worker([], Ready), maxSize);
    }
  }

  lemma {:induction false} AlwaysInv(o: State, steps: seq<Step>, maxSize: nat)
    requires Start(o)
    ensures Inv(o, Run(o, steps, maxSize), maxSize)
  {
    if steps == [] {
      assert forall id <- o.rows :: RowOk(o, o, id, maxSize);
    } else {
      var front, last := steps[..|steps| - 1], steps[|steps| - 1];
      AlwaysInv(o, front, maxSize);
      hide Inv, Next;
      StepKeeps(o, Run(o, front, maxSize), last, maxSize);
    }
  }

  /** Whatever fails, crashes or interleaves, and whatever is answered about other rows: a row
      that could be read, that nobody began to delete, that fits the window if it can be moved
      at all, and no update of which took effect and was answered with an error, reads the same. */
  lemma NeverLoses(o: State, steps: seq<Step>, id: string, maxSize: nat)
    requires Start(o) && Fits(o, id, maxSize) && id !in Run(o, steps, maxSize).belied
    ensures Kept(o, Run(o, steps, maxSize), id)
  {
    AlwaysInv(o, steps, maxSize);
    var n := Run(o, steps, maxSize);
    if Reads(o, id).Some? && id !in n.doomed { assert RowOk(o, n, id, maxSize); }
  }

  /** Every row uploaded meanwhile that nobody began to delete has the bytes of its checksum,
      unless its own insert took effect and was answered with an error. */
  lemma UploadsStay(o: State, steps: seq<Step>, id: string, maxSize: nat)
    requires Start(o)
    requires var n := Run(o, steps, maxSize); id in n.rows && id !in o.rows && id !in n.doomed
    requires id !in Run(o, steps, maxSize).belied
    ensures var n := Run(o, steps, maxSize); Reads(n, id).Some? && n.rows[id].sum == Sha(Reads(n, id).value)
  {
    AlwaysInv(o, steps, maxSize);
    assert RowOk(o, Run(o, steps, maxSize), id, maxSize);
  }

  // ---- exactly when

  /** One migrator moves one document, with nothing failing. */
  function MoveSteps(id: string, pid: string): seq<Step> {
    [Arrive, List(0, [id]), Fetch(0, true), File(0, pid, Done), Move(0, Done), Drop(0, Done)]
  }

  function Listed(o: State, id: string): State
    requires id in o.rows
  {
    o.(workers := [Worker([o.rows[id]], Ready)])
  }

  function Copied(o: State, id: string, pid: string, c: Bytes): State
    requires id in o.rows
  {
    o.(papers := o.papers[pid := c], used := o.used + {pid}, workers := [Worker([], Filed(o.rows[id], pid))])
  }

  lemma MovesFirst(o: State, id: string, maxSize: nat)
    requires o.workers == [] && Listable(o, id)
    ensures Next(Next(o, Arrive, maxSize), List(0, [id]), maxSize) == Listed(o, id)
  {
    assert RowsOf(o.rows, [id]) == [o.rows[id]];
  }

  lemma MovesNext(o: State, id: string, pid: string, maxSize: nat)
    requires Movable(o, id, maxSize) && pid !in o.used
    ensures Next(Next(Listed(o, id), Fetch(0, true), maxSize), File(0, pid, Done), maxSize) ==
      Copied(o, id, pid, Window(o.blobs[o.rows[id].key], maxSize))
  {
    var d := o.rows[id];
    var c := Window(o.blobs[d.key], maxSize);
    assert DoFetch(Listed(o, id), 0, true, maxSize) == o.(workers := [Worker([], Holding(d, c))]) by {
      assert [d][1..] == [];
    }
  }

  lemma MovesLast(o: State, id: string, pid: string, c: Bytes, maxSize: nat)
    requires id in o.rows && o.rows[id].id == id
    ensures var n := Next(Next(Copied(o, id, pid, c), Move(0, Done), maxSize), Drop(0, Done), maxSize);
      Reads(n, id) == Some(c) && n.doomed == o.doomed && n.belied == o.belied
  {
    var m := DoMove(Copied(o, id, pid, c), 0, Done);
    assert m.rows[id].paper == Some(pid) && m.workers == [Worker([], Switched(o.rows[id]))];
  }

  lemma MoveRuns(o: State, id: string, pid: string, maxSize: nat)
    requires Start(o) && Movable(o, id, maxSize) && pid !in o.used
    ensures var n := Run(o, MoveSteps(id, pid), maxSize);
      Reads(n, id) == Some(Window(o.blobs[o.rows[id].key], maxSize)) && n.doomed == {} && n.belied == {}
  {
    var s := MoveSteps(id, pid);
    MovesFirst(o, id, maxSize);
    MovesNext(o, id, pid, maxSize);
    MovesLast(o, id, pid, Window(o.blobs[o.rows[id].key], maxSize), maxSize);
    SixSteps(o, s, maxSize);
    hide Next, Run, Reads, Movable, Start;
  }

  lemma SixSteps(o: State, s: seq<Step>, maxSize: nat)
    requires |s| == 6
    ensures var n := Next(Next(Next(o, s[0], maxSize), s[1], maxSize), s[2], maxSize);
      Run(o, s, maxSize) == Next(Next(Next(n, s[3], maxSize), s[4], maxSize), s[5], maxSize)
  {
    hide Next, Run;
    RunTo(o, s, 0, maxSize); RunTo(o, s, 1, maxSize); RunTo(o, s, 2, maxSize);
    RunTo(o, s, 3, maxSize); RunTo(o, s, 4, maxSize); RunTo(o, s, 5, maxSize);
    assert s[..6] == s;
  }

  lemma RunTo(o: State, s: seq<Step>, i: nat, maxSize: nat)
    requires i < |s|
    ensures Run(o, s[..i + 1], maxSize) == Next(Run(o, s[..i], maxSize), s[i], maxSize)
    ensures Run(o, s[..0], maxSize) == o
  {
    assert s[..i + 1][..i] == s[..i];
    hide Next;
  }

  /** Paperless can always give out another id. */
  lemma {:induction false} FreshPid(used: set<string>, n: nat) returns (pid: string)
    requires forall s <- used :: |s| < n
    ensures pid !in used
  {
    pid := seq(n, i => 'p');
  }

  lemma {:induction false} LongestOf(used: set<string>) returns (n: nat)
    ensures forall s <- used :: |s| < n
    decreases |used|
  {
    if used == {} {
      n := 0;
    } else {
      var s :| s in used;
      var m := LongestOf(used - {s});
      n := if m > |s| then m else |s| + 1;
      forall t <- used ensures |t| < n { if t != s { assert t in used - {s}; } }
    }
  }

  /** A row is safe in every run exactly when it cannot be moved, or the whole of it fits the
      window it is read through: four times the upload limit and one. No other row matters. */
  lemma SafeExactly(o: State, id: string, maxSize: nat)
    requires Start(o)
    ensures Safe(o, id, maxSize) <==> Fits(o, id, maxSize)
  {
    if Fits(o, id, maxSize) {
      forall steps: seq<Step> | id !in Run(o, steps, maxSize).belied ensures Kept(o, Run(o, steps, maxSize), id) {
        NeverLoses(o, steps, id, maxSize);
      }
    } else {
      var n := LongestOf(o.used);
      var pid := FreshPid(o.used, n);
      MoveRuns(o, id, pid, maxSize);
      hide Run;
      assert !Kept(o, Run(o, MoveSteps(id, pid), maxSize), id);
    }
  }

  /** So a row with a recorded checksum that its bytes match is safe: what is cut short does not match. */
  lemma ChecksumGuards(o: State, id: string, maxSize: nat)
    requires Start(o) && id in o.rows && o.rows[id].key in o.blobs && o.rows[id].sum == Sha(o.blobs[o.rows[id].key])
    ensures Safe(o, id, maxSize)
  {
    SafeExactly(o, id, maxSize);
  }

  /** The whole store is safe exactly when every document that can be moved fits. */
  lemma PreservesExactly(o: State, maxSize: nat)
    requires Start(o)
    ensures (forall id :: Safe(o, id, maxSize)) <==> AllFit(o, maxSize)
  {
    forall id ensures Safe(o, id, maxSize) <==> Fits(o, id, maxSize) { SafeExactly(o, id, maxSize); }
  }

  // ---- a row store that reports an error after the write

  /** One migrator switches the row, is told that this failed, and removes the copy. */
  function LostSteps(id: string, pid: string): seq<Step> {
    [Arrive, List(0, [id]), Fetch(0, true), File(0, pid, Done), Move(0, FailedAfter), Undo(0, Done)]
  }

  lemma LostLast(o: State, id: string, pid: string, c: Bytes, maxSize: nat)
    requires id in o.rows && o.rows[id].id == id
    ensures var n := Next(Next(Copied(o, id, pid, c), Move(0, FailedAfter), maxSize), Undo(0, Done), maxSize);
      Reads(n, id) == None && n.doomed == o.doomed
  {
    var m := DoMove(Copied(o, id, pid, c), 0, FailedAfter);
    assert m.rows[id].paper == Some(pid) && m.workers == [Worker([], Undoing(pid))];
  }

  lemma LostRuns(o: State, id: string, pid: string, maxSize: nat)
    requires Start(o) && Movable(o, id, maxSize) && pid !in o.used
    ensures !Kept(o, Run(o, LostSteps(id, pid), maxSize), id)
  {
    var c := Window(o.blobs[o.rows[id].key], maxSize);
    MovesFirst(o, id, maxSize);
    MovesNext(o, id, pid, maxSize);
    LostLast(o, id, pid, c, maxSize);
    SixSteps(o, LostSteps(id, pid), maxSize);
    assert Reads(o, id).Some?;
    hide Next, Run, Reads, Movable, Start;
  }

  /** Over all runs, whatever is answered: a row is safe exactly when it cannot be moved. Every
      document that can be is lost by a single false answer, and no false answer harms any other. */
  lemma SafeAnyhowExactly(o: State, id: string, maxSize: nat)
    requires Start(o)
    ensures SafeAnyhow(o, id, maxSize) <==> !Movable(o, id, maxSize)
  {
    if Movable(o, id, maxSize) {
      var n := LongestOf(o.used);
      var pid := FreshPid(o.used, n);
      LostRuns(o, id, pid, maxSize);
    } else {
      forall steps: seq<Step> ensures Kept(o, Run(o, steps, maxSize), id) {
        AlwaysInv(o, steps, maxSize);
        if id in o.rows { NeverLoses(o, steps, id, maxSize); }
      }
    }
  }

  /** An upload whose insert takes effect and is answered with an error. */
  function LostUpload(id: string, tenant: string, content: Bytes, pid: string): seq<Step> {
    [Arrive, Upload(0, id, tenant, content, pid, Done), Insert(0, FailedAfter), Undo(0, Done)]
  }

  /** In any state, reachable or not, in which an upload is about to insert its row: that answer
      leaves a row that cannot be read. */
  lemma FalseInsertLoses(h: State, w: nat, maxSize: nat)
    requires w < |h.workers| && h.workers[w].phase.Uploaded?
    requires var p := h.workers[w].phase; p.doc.paper == Some(p.pid) && p.doc.id !in h.rows
    ensures var n := Next(Next(h, Insert(w, FailedAfter), maxSize), Undo(w, Done), maxSize);
      var id := h.workers[w].phase.doc.id;
      id in n.rows && Reads(n, id) == None && n.doomed == h.doomed && n.belied == h.belied + {id}
  {
    var p := h.workers[w].phase;
    var m := DoInsert(h, w, FailedAfter);
    assert m.workers[w].phase == Undoing(p.pid) && m.rows[p.doc.id] == p.doc;
  }

  lemma UploadArrives(o: State, id: string, tenant: string, content: Bytes, pid: string, maxSize: nat)
    requires Start(o) && |content| <= maxSize && id !in o.known && pid !in o.used
    ensures var h := Next(Next(o, Arrive, maxSize), Upload(0, id, tenant, content, pid, Done), maxSize);
      var d := Doc(id, tenant, PAPER_PREFIX + pid, Some(pid), Sha(content));
      h.workers == [Worker([], Uploaded(d, pid))] && h.rows == o.rows && h.doomed == {}
  {
  }

  lemma FourSteps(o: State, s: seq<Step>, maxSize: nat)
    requires |s| == 4
    ensures var n := Next(Next(o, s[0], maxSize), s[1], maxSize);
      Run(o, s, maxSize) == Next(Next(n, s[2], maxSize), s[3], maxSize)
  {
    hide Next, Run;
    RunTo(o, s, 0, maxSize); RunTo(o, s, 1, maxSize); RunTo(o, s, 2, maxSize); RunTo(o, s, 3, maxSize);
    assert s[..4] == s;
  }

  /** So every upload that can be made at all can be lost by one false answer. */
  lemma UploadLost(o: State, id: string, tenant: string, content: Bytes, pid: string, maxSize: nat)
    requires Start(o) && |content| <= maxSize && id !in o.known && pid !in o.used
    ensures var n := Run(o, LostUpload(id, tenant, content, pid), maxSize);
      id in n.rows && id !in o.rows && id !in n.doomed && Reads(n, id) == None
  {
    var s := LostUpload(id, tenant, content, pid);
    assert id !in o.rows;
    hide Next, Run, Reads, Start;
    FourSteps(o, s, maxSize);
    UploadArrives(o, id, tenant, content, pid, maxSize);
    FalseInsertLoses(Next(Next(o, s[0], maxSize), s[1], maxSize), 0, maxSize);
  }
}
