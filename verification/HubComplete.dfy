/** Delivery without a gap: a connection opened without a replay id is sent every entry
    meant for it that was published after Subscribe returned, up to the one being
    dispatched, as long as the ids of its tenant's stream rise and that stream is not
    trimmed ahead of its reader. */
module HubComplete {
  import opened Optional
  import opened Hub
  import opened HubBooks

  // ---- streams

  /** The ids of a stream rise, as they do while the clock of its store does not go back. */
  ghost predicate Rising(es: seq<Entry>) {
    && (forall i | 0 <= i < |es| :: Less(ZERO, es[i].id))
    && (forall i, j | 0 <= i < j < |es| :: Less(es[i].id, es[j].id))
  }

  predicate Cut(l: Log) { l.dropped <= |l.entries| }

  ghost predicate LogOk(l: Log) { Cut(l) && Rising(l.entries) }

  ghost predicate Logs(h: State) { forall t :: Cut(LogOf(h, t)) }

  /** An id at or below the entries before a position. */
  predicate Below(es: seq<Entry>, id: Id, p: nat) {
    p <= |es| && if p == 0 then id == ZERO else !Less(es[p - 1].id, id)
  }

  lemma BelowIsLess(l: Log, id: Id, p: nat, i: nat)
    requires LogOk(l) && Below(l.entries, id, p) && p <= i < |l.entries|
    ensures Less(id, l.entries[i].id)
  {
    if 0 < p { assert Less(l.entries[p - 1].id, l.entries[i].id); }
  }

  lemma BelowGrows(l: Log, id: Id, p: nat, q: nat)
    requires LogOk(l) && Below(l.entries, id, p) && p <= q <= |l.entries|
    ensures Below(l.entries, id, q)
  {
    if p < q { BelowIsLess(l, id, p, q - 1); }
  }

  /** Reading by id is reading by position. */
  lemma AfterIsRest(l: Log, id: Id, p: nat)
    requires LogOk(l) && Below(l.entries, id, p)
    requires p <= l.dropped || (0 < p && id == l.entries[p - 1].id)
    ensures After(l, id) == l.entries[if p < l.dropped then l.dropped else p..]
  {
    var q := if p < l.dropped then l.dropped else p;
    forall j | q <= j < |l.entries| ensures Less(id, l.entries[j].id) { BelowIsLess(l, id, p, j); }
    forall j | l.dropped <= j < q ensures !Less(id, l.entries[j].id) {
      if j < p - 1 { assert Less(l.entries[j].id, l.entries[p - 1].id); }
    }
    AfterSkips(l.entries, l.dropped, q, id);
    AfterAll(l.entries, q, id);
  }

  lemma {:induction false} AfterAll(es: seq<Entry>, i: nat, id: Id)
    requires i <= |es| && forall j | i <= j < |es| :: Less(id, es[j].id)
    ensures AfterFrom(es, i, id) == es[i..]
    decreases |es| - i
  {
    if i < |es| { AfterAll(es, i + 1, id); }
  }

  lemma {:induction false} AfterSkips(es: seq<Entry>, i: nat, p: nat, id: Id)
    requires i <= p <= |es| && forall j | i <= j < p :: !Less(id, es[j].id)
    ensures AfterFrom(es, i, id) == AfterFrom(es, p, id)
    decreases p - i
  {
    if i < p { AfterSkips(es, i + 1, p, id); }
  }

  // ---- what a connection should have got

  /** The entries at positions from..to meant for a user, as events. */
  ghost function Targeted(es: seq<Entry>, from: nat, to: nat, u: string): seq<Event>
    requires to <= |es|
  {
    if to <= from then []
    else
      var e := es[to - 1];
      Targeted(es, from, to - 1, u) + (if Targets(e.to, u) then [Live(e.id, e.data)] else [])
  }

  lemma {:induction false} TargetedGrows(es: seq<Entry>, more: seq<Entry>, from: nat, to: nat, u: string)
    requires to <= |es|
    ensures Targeted(es + more, from, to, u) == Targeted(es, from, to, u)
  {
    if from < to { TargetedGrows(es, more, from, to - 1, u); }
  }

  // ---- readers

  predicate Waits(h: State, k: nat, x: nat, e: Entry) {
    x < |h.subs| && h.subs[x].group == k && Targets(e.to, h.subs[x].user)
  }

  /** The connections a group still pushes to are its own, each once, and the entry is meant for them. */
  ghost predicate Queue(h: State, k: nat)
    requires k < |h.groups|
  {
    var g := h.groups[k];
    && (forall i, j | 0 <= i < j < |g.todo| :: g.todo[i] != g.todo[j])
    && (g.todo != [] ==> g.entry.Some?)
    && (forall x | x in g.todo :: Waits(h, k, x, g.entry.value))
    && (g.closing.Some? ==> g.closing.value < |h.subs| && h.subs[g.closing.value].group == k)
  }

  /** The reader's batch is the stretch of the stream at its position. */
  ghost predicate Reading(l: Log, g: Group) {
    && g.pos + |g.batch| <= |l.entries| && g.batch == l.entries[g.pos..g.pos + |g.batch|]
    && (g.todo != [] ==> g.entry.Some? && 0 < g.pos && g.entry.value == l.entries[g.pos - 1])
    && Below(l.entries, g.last, g.pos)
    && (g.pos <= l.dropped || (0 < g.pos && g.last == l.entries[g.pos - 1].id))
  }

  ghost predicate ReaderOk(h: State, k: nat)
    requires k < |h.groups|
  {
    var l := LogOf(h, h.groups[k].tenant);
    Queue(h, k) && ReadTo(h.groups[k]) <= |l.entries| && (Rising(l.entries) ==> Reading(l, h.groups[k]))
  }

  function ReadTo(g: Group): nat { g.pos + |g.batch| }

  // ---- what every step keeps of streams and connections

  /** Streams only grow at their end, and a connection stays who it is. */
  ghost predicate Later(h: State, n: State) {
    && |h.subs| <= |n.subs|
    && (forall x | 0 <= x < |h.subs| :: SameStart(h.subs[x], n.subs[x]))
    && (forall t :: LogOf(h, t).entries <= LogOf(n, t).entries)
  }

  predicate SameStart(s: Sub, r: Sub) {
    s.tenant == r.tenant && s.user == r.user && s.live == r.live && s.group == r.group && (s.closed ==> r.closed)
  }

  lemma PushSameStart(s: Sub, ev: Event)
    ensures SameStart(s, Push(s, ev).0)
  {
  }

  lemma SubLater(h: State, x: nat, s: Sub)
    requires x < |h.subs| && SameStart(h.subs[x], s)
    ensures Later(h, h.(subs := h.subs[x := s]))
  {
  }

  lemma PushLater(h: State, x: nat, s: Sub, ev: Event)
    requires x < |h.subs| && SameStart(h.subs[x], s)
    ensures Later(h, h.(subs := h.subs[x := Push(s, ev).0]))
  {
    PushSameStart(s, ev);
    hide Push;
    SubLater(h, x, Push(s, ev).0);
  }

  lemma StallLater(h: State, x: nat, s: Sub, ev: Event, g: Group)
    requires x < |h.subs| && SameStart(h.subs[x], s)
    ensures Later(h, h.(subs := h.subs[x := Stall(Push(s, ev).0, g)]))
  {
    PushSameStart(s, ev);
    hide Push;
    SubLater(h, x, Stall(Push(s, ev).0, g));
  }

  lemma RoomLater(h: State, n: State, m: State)
    requires Later(h, n) && m.subs == n.subs && m.logs == n.logs
    ensures Later(h, m)
  {
    forall t ensures LogOf(h, t).entries <= LogOf(m, t).entries { assert LogOf(h, t).entries <= LogOf(n, t).entries; }
  }

  lemma PushNextLater(h: State, k: nat)
    ensures Later(h, DoPushNext(h, k))
  {
    var n := DoPushNext(h, k);
    if n != h {
      var g := h.groups[k];
      var s := h.subs[g.todo[0]];
      PushLater(h, g.todo[0], s, EventOf(g.entry.value));
      StallLater(h, g.todo[0], s, EventOf(g.entry.value), g);
      hide Push, Later;
      RoomLater(h, h.(subs := n.subs), n);
    }
  }

  lemma CloseLater(h: State, x: nat)
    ensures Later(h, DoClose(h, x))
  {
    CloseShape(h, x);
    hide DoClose;
    var n := DoClose(h, x);
    forall y | 0 <= y < |h.subs| ensures SameStart(h.subs[y], n.subs[y]) {
      assert n.subs[y] == h.subs[y] || n.subs[y] == Shut(h, y);
    }
  }

  lemma SourceLater(h: State, t: string, e: Entry, n: nat)
    ensures Later(h, DoPublish(h, t, e)) && Later(h, DoTrim(h, t, n))
  {
    hide Less;
  }

  lemma SubscribeLater(h: State, t: string, u: string, live: bool, up: bool)
    ensures Later(h, DoSubscribe(h, t, u, live, up))
  {
    hide Enter, Full;
  }

  lemma ReplayLater(h: State, x: nat, id: Id, n: nat)
    ensures Later(h, DoReplayReset(h, x)) && Later(h, DoReplayRead(h, x, id, n)) && Later(h, DoReplayPush(h, x))
    ensures Later(h, DoTake(h, x))
  {
    assert Later(h, h);
    hide Later, Push, After;
    if x < |h.subs| {
      PushLater(h, x, h.subs[x], Reset);
      SubLater(h, x, DoReplayRead(h, x, id, n).subs[x]);
      SubLater(h, x, DoTake(h, x).subs[x]);
      if h.subs[x].replay != [] {
        var s := h.subs[x].(replay := h.subs[x].replay[1..]);
        PushLater(h, x, s, EventOf(h.subs[x].replay[0]));
        SubLater(h, x, s);
      }
    }
  }

  lemma CloseStalledLater(h: State, k: nat)
    ensures Later(h, DoCloseStalled(h, k))
  {
    if k < |h.groups| && h.groups[k].closing.Some? {
      CloseLater(h, h.groups[k].closing.value);
      hide Later, DoClose;
      RoomLater(h, DoClose(h, h.groups[k].closing.value), DoCloseStalled(h, k));
    }
  }

  lemma StepLater(h: State, step: Step)
    ensures Later(h, Next(h, step))
  {
    assert Later(h, h);
    hide Later, DoPublish, DoTrim, DoSubscribe, DoReplayReset, DoReplayRead, DoReplayPush, DoTake, DoPushNext;
    hide DoClose, DoCloseStalled, After, IsFanOut;
    match step
    case Publish(t, e) => SourceLater(h, t, e, 0);
    case Trim(t, n) => SourceLater(h, t, Entry(ZERO, Everyone, ""), n);
    case Subscribe(t, u, live, up) => SubscribeLater(h, t, u, live, up);
    case ReplayRead(x, id, n) => ReplayLater(h, x, id, n);
    case PushNext(k) => PushNextLater(h, k);
    case Close(x) => CloseLater(h, x);
    case CloseStalled(k) => CloseStalledLater(h, k);
    case Read(k, n) => RoomLater(h, h, DoRead(h, k, n));
    case Dispatch(k, order) => RoomLater(h, h, DoDispatch(h, k, order));
    case Cancel => RoomLater(h, h, h.(cancelled := true));
    case Snapshot => RoomLater(h, h, DoSnapshot(h));
    case _ => ReplayLater(h, step.sub, ZERO, 0);
  }

  lemma {:induction false} RunLater(h: State, steps: seq<Step>)
    ensures Later(h, Run(h, steps))
  {
    if steps != [] {
      var m := Run(h, steps[..|steps| - 1]);
      RunLater(h, steps[..|steps| - 1]);
      hide Next;
      StepLater(m, steps[|steps| - 1]);
      var n := Run(h, steps);
      forall x | 0 <= x < |h.subs| ensures SameStart(h.subs[x], n.subs[x]) {
        assert SameStart(h.subs[x], m.subs[x]) && SameStart(m.subs[x], n.subs[x]);
      }
    }
  }

  predicate SameReader(g: Group, f: Group) { f == g.(conns := f.conns, byUser := f.byUser, cancelled := f.cancelled) }

  lemma CloseShape(h: State, x: nat)
    ensures var n := DoClose(h, x);
      && |n.groups| == |h.groups| && |n.subs| == |h.subs| && n.logs == h.logs
      && (forall k | 0 <= k < |h.groups| :: SameReader(h.groups[k], n.groups[k]))
      && (forall y | 0 <= y < |h.subs| :: n.subs[y] == h.subs[y] || (y == x && n.subs[y] == Shut(h, y)))
      && (x < |h.subs| ==> n.subs[x].closed)
      && (forall t <- n.tenants :: t in h.tenants && n.tenants[t] == h.tenants[t])
  {
  }

  // ---- streams and readers, in every run

  ghost predicate Base(h: State) { Logs(h) && forall k | 0 <= k < |h.groups| :: ReaderOk(h, k) }

  ghost predicate Grown(l: Log, m: Log) {
    Cut(m) && |l.entries| <= |m.entries| && m.entries[..|l.entries|] == l.entries && l.dropped <= m.dropped
  }

  lemma GrownRises(l: Log, m: Log)
    requires Grown(l, m) && Rising(m.entries)
    ensures Rising(l.entries)
  {
    forall i | 0 <= i < |l.entries| ensures m.entries[i] == l.entries[i] {
      assert m.entries[..|l.entries|][i] == l.entries[i];
    }
  }

  lemma GrownReading(l: Log, m: Log, g: Group)
    requires Reading(l, g) && Grown(l, m)
    ensures Reading(m, g)
  {
    forall i | 0 <= i < |l.entries| ensures m.entries[i] == l.entries[i] {
      assert m.entries[..|l.entries|][i] == l.entries[i];
    }
  }

  /** The same reader at the same place, which may also forget the connection it has just closed. */
  predicate SameTask(g: Group, f: Group) {
    && f == g.(conns := f.conns, byUser := f.byUser, cancelled := f.cancelled, closing := f.closing)
    && (f.closing == g.closing || f.closing.None?)
  }

  lemma SameQueue(h: State, n: State, k: nat)
    requires Later(h, n) && k < |h.groups| && Queue(h, k) && k < |n.groups| && SameTask(h.groups[k], n.groups[k])
    ensures Queue(n, k)
  {
    var g := n.groups[k];
    forall x | x in g.todo ensures Waits(n, k, x, g.entry.value) {
      assert Waits(h, k, x, g.entry.value) && SameStart(h.subs[x], n.subs[x]);
    }
    if g.closing.Some? { assert SameStart(h.subs[g.closing.value], n.subs[g.closing.value]); }
  }

  /** A step has to account for the readers it moves. */
  lemma BaseStep(h: State, n: State)
    requires Base(h) && Later(h, n) && forall t :: Grown(LogOf(h, t), LogOf(n, t))
    requires forall k | 0 <= k < |n.groups| :: (k < |h.groups| && SameTask(h.groups[k], n.groups[k])) || ReaderOk(n, k)
    ensures Base(n)
  {
    assert Logs(n) by { forall t ensures Cut(LogOf(n, t)) { assert Grown(LogOf(h, t), LogOf(n, t)); } }
    forall k | 0 <= k < |n.groups| ensures ReaderOk(n, k) {
      if k < |h.groups| && SameTask(h.groups[k], n.groups[k]) {
        assert ReaderOk(h, k);
        var t := n.groups[k].tenant;
        assert Grown(LogOf(h, t), LogOf(n, t));
        SameQueue(h, n, k);
        assert |LogOf(h, t).entries| <= |LogOf(n, t).entries|;
        hide Grown, Queue, Reading, Rising;
        if Rising(LogOf(n, t).entries) {
          GrownRises(LogOf(h, t), LogOf(n, t));
          GrownReading(LogOf(h, t), LogOf(n, t), h.groups[k]);
        }
      }
    }
  }

  lemma SameLogs(h: State, n: State)
    requires Logs(h) && n.logs == h.logs
    ensures forall t :: Grown(LogOf(h, t), LogOf(n, t))
  {
    forall t ensures Grown(LogOf(h, t), LogOf(n, t)) { assert Cut(LogOf(h, t)); }
  }

  lemma LogsBase(h: State, n: State)
    requires Base(h) && Later(h, n) && n == h.(logs := n.logs) && forall t :: Grown(LogOf(h, t), LogOf(n, t))
    ensures Base(n)
  {
    hide Later, Grown, ReaderOk;
    BaseStep(h, n);
  }

  lemma PublishBase(h: State, t: string, e: Entry)
    requires Base(h)
    ensures Base(DoPublish(h, t, e))
  {
    var n := DoPublish(h, t, e);
    SourceLater(h, t, e, 0);
    forall u ensures Grown(LogOf(h, u), LogOf(n, u)) { assert Cut(LogOf(h, u)); }
    hide Base, Later, Grown;
    LogsBase(h, n);
  }

  lemma TrimBase(h: State, t: string, d: nat)
    requires Base(h)
    ensures Base(DoTrim(h, t, d))
  {
    var n := DoTrim(h, t, d);
    SourceLater(h, t, Entry(ZERO, Everyone, ""), d);
    forall u ensures Grown(LogOf(h, u), LogOf(n, u)) { assert Cut(LogOf(h, u)); }
    hide Base, Later, Grown;
    LogsBase(h, n);
  }

  predicate Quiet(step: Step) {
    step.ReplayReset? || step.ReplayRead? || step.ReplayPush? || step.Take? || step.Cancel? || step.Snapshot?
  }

  /** Steps that change neither streams nor readers, nor what a live connection was sent. */
  lemma QuietLeaves(h: State, step: Step, x: nat)
    requires Quiet(step)
    ensures var n := Next(h, step); n.groups == h.groups && n.logs == h.logs && |n.subs| == |h.subs|
    ensures x < |h.subs| && h.subs[x].live ==> SameSub(h.subs[x], Next(h, step).subs[x])
  {
    hide Push, After, Upto, Targets;
  }

  predicate SameSub(s: Sub, r: Sub) { r == s.(taken := r.taken, replay := r.replay) }

  lemma QuietBase(h: State, step: Step)
    requires Base(h) && Quiet(step)
    ensures Base(Next(h, step))
  {
    var n := Next(h, step);
    StepLater(h, step);
    QuietLeaves(h, step, 0);
    hide Next;
    SameLogs(h, n);
    hide Later, Grown, ReaderOk;
    BaseStep(h, n);
  }

  lemma UptoRest(es: seq<Entry>, p: nat, count: nat)
    requires p <= |es|
    ensures var b := Upto(es[p..], count); p + |b| <= |es| && b == es[p..p + |b|]
  {
  }

  lemma ReadReads(l: Log, g: Group, count: nat)
    requires LogOk(l) && Reading(l, g) && Idle(g) && g.batch == []
    ensures var es := After(l, g.last); var f := g.(pos := |l.entries| - |es|, batch := Upto(es, count));
      Reading(l, f) && Advances(l, g, f)
  {
    AfterIsRest(l, g.last, g.pos);
    var p := if g.pos < l.dropped then l.dropped else g.pos;
    BelowGrows(l, g.last, g.pos, p);
    UptoRest(l.entries, p, count);
    hide Upto, After, LogOk;
  }

  predicate Advances(l: Log, g: Group, f: Group) {
    f == g.(pos := f.pos, batch := f.batch) && f.pos == if g.pos < l.dropped then l.dropped else g.pos
  }

  lemma ReadQueue(h: State, k: nat, count: nat)
    requires Base(h) && DoRead(h, k, count) != h
    ensures ReaderOk(DoRead(h, k, count), k)
  {
    var g := h.groups[k];
    var l := LogOf(h, g.tenant);
    assert ReaderOk(h, k) && Cut(l);
    hide After, Upto, Cut, Rising, Reading;
    if Rising(l.entries) { ReadReads(l, g, count); }
  }

  lemma ReadBase(h: State, k: nat, count: nat)
    requires Base(h)
    ensures Base(DoRead(h, k, count))
  {
    var n := DoRead(h, k, count);
    if n != h {
      StepLater(h, Read(k, count));
      SameLogs(h, n);
      ReadQueue(h, k, count);
      assert |n.groups| == |h.groups| && forall j | 0 <= j < |h.groups| && j != k :: n.groups[j] == h.groups[j];
      hide DoRead, Later, Grown, ReaderOk;
      BaseStep(h, n);
    }
  }

  lemma DispatchReads(l: Log, g: Group, order: seq<nat>)
    requires LogOk(l) && Reading(l, g) && g.batch != []
    ensures Reading(l, Dispatched(g, order)) && g.batch[0] == l.entries[g.pos]
  {
    var f := Dispatched(g, order);
    assert g.batch[0] == l.entries[g.pos];
    assert f.batch == l.entries[f.pos..f.pos + |f.batch|];
  }

  lemma DispatchBase(h: State, k: nat, order: seq<nat>)
    requires Books(h) && Base(h)
    ensures Base(DoDispatch(h, k, order))
  {
    var n := DoDispatch(h, k, order);
    if n != h {
      var g := h.groups[k];
      assert ReaderOk(h, k) && Cut(LogOf(h, g.tenant));
      forall x | x in order ensures Waits(n, k, x, g.batch[0]) { assert Member(h, k, x); }
      if Rising(LogOf(h, g.tenant).entries) { DispatchReads(LogOf(h, g.tenant), g, order); }
      StepLater(h, Dispatch(k, order));
      SameLogs(h, n);
      assert ReaderOk(n, k);
      hide DoDispatch, Later, Grown, ReaderOk, Books;
      BaseStep(h, n);
    }
  }

  lemma PushNextQueue(h: State, k: nat)
    requires Base(h) && DoPushNext(h, k) != h
    ensures ReaderOk(DoPushNext(h, k), k)
  {
    var n, g := DoPushNext(h, k), h.groups[k];
    PushNextLater(h, k);
    assert ReaderOk(h, k);
    hide Push;
    forall y | y in g.todo ensures Waits(n, k, y, g.entry.value) {
      assert Waits(h, k, y, g.entry.value) && SameStart(h.subs[y], n.subs[y]);
    }
    assert g.todo[0] in g.todo && forall y | y in n.groups[k].todo :: y in g.todo;
    assert Queue(n, k);
  }

  lemma PushNextBase(h: State, k: nat)
    requires Base(h)
    ensures Base(DoPushNext(h, k))
  {
    var n := DoPushNext(h, k);
    if n != h {
      PushNextLater(h, k);
      SameLogs(h, n);
      PushNextQueue(h, k);
      assert |n.groups| == |h.groups| && forall j | 0 <= j < |h.groups| && j != k :: n.groups[j] == h.groups[j];
      hide DoPushNext, Later, Grown, ReaderOk;
      BaseStep(h, n);
    }
  }

  lemma CloseBase(h: State, x: nat)
    requires Base(h)
    ensures Base(DoClose(h, x))
  {
    CloseShape(h, x);
    CloseLater(h, x);
    hide DoClose;
    var n := DoClose(h, x);
    SameLogs(h, n);
    forall k | 0 <= k < |n.groups| ensures SameTask(h.groups[k], n.groups[k]) {
      assert SameReader(h.groups[k], n.groups[k]);
    }
    hide Later, Grown, ReaderOk, SameTask;
    BaseStep(h, n);
  }

  lemma CloseStalledBase(h: State, k: nat)
    requires Base(h)
    ensures Base(DoCloseStalled(h, k))
  {
    if k < |h.groups| && h.groups[k].closing.Some? {
      var x := h.groups[k].closing.value;
      CloseShape(h, x);
      CloseStalledLater(h, k);
      var n := DoCloseStalled(h, k);
      hide DoClose;
      SameLogs(h, n);
      forall j | 0 <= j < |n.groups| ensures SameTask(h.groups[j], n.groups[j]) {
        assert SameReader(h.groups[j], DoClose(h, x).groups[j]);
      }
      hide Later, Grown, ReaderOk, SameTask;
      BaseStep(h, n);
    }
  }

  lemma NewReader(h: State, t: string)
    requires Base(h) && t !in h.tenants
    ensures ReaderOk(Joined(h, t), |h.groups|)
  {
    assert Cut(LogOf(h, t));
  }

  lemma SubscribeBase(h: State, t: string, u: string, live: bool, up: bool)
    requires Base(h)
    ensures Base(DoSubscribe(h, t, u, live, up))
  {
    var n := DoSubscribe(h, t, u, live, up);
    if !h.cancelled && (t in h.tenants || up) {
      var m := Joined(h, t);
      assert Later(h, m) && m.logs == h.logs;
      SameLogs(h, m);
      if t !in h.tenants { NewReader(h, t); }
      assert forall k | 0 <= k < |h.groups| :: SameTask(h.groups[k], m.groups[k]);
      assert Base(m) by { hide Joined, Later, Grown, ReaderOk, SameTask; BaseStep(h, m); }
      hide Joined;
      if m.tenants[t] < |m.groups| { SeatBase(m, t, u, live, m.tenants[t]); }
    }
  }

  lemma SeatBase(h: State, t: string, u: string, live: bool, k: nat)
    requires Base(h) && k < |h.groups|
    ensures Base(Seat(h, t, u, live, k))
  {
    var n := Seat(h, t, u, live, k);
    assert Later(h, n) && n.logs == h.logs;
    SameLogs(h, n);
    assert forall j | 0 <= j < |n.groups| :: SameTask(h.groups[j], n.groups[j]);
    hide Seat, Later, Grown, ReaderOk, SameTask;
    BaseStep(h, n);
  }

  lemma StepBase(h: State, step: Step)
    requires Books(h) && Base(h)
    ensures Base(Next(h, step))
  {
    hide Base, Books, DoPublish, DoTrim, DoSubscribe, DoRead, DoDispatch, DoPushNext, DoCloseStalled, DoClose;
    match step
    case Publish(t, e) => PublishBase(h, t, e);
    case Trim(t, d) => TrimBase(h, t, d);
    case Subscribe(t, u, live, up) => SubscribeBase(h, t, u, live, up);
    case Read(k, count) => ReadBase(h, k, count);
    case Dispatch(k, order) => DispatchBase(h, k, order);
    case PushNext(k) => PushNextBase(h, k);
    case CloseStalled(k) => CloseStalledBase(h, k);
    case Close(x) => CloseBase(h, x);
    case _ => hide Next; QuietBase(h, step);
  }

  /** In every run, whatever is trimmed: each reader pushes to connections of its own that the
      entry is meant for; and where the ids of a stream rise, its readers' batches are the
      stretches of the stream at their positions. */
  lemma {:induction false} BaseAlways(perUser: int, perTenant: int, steps: seq<Step>)
    ensures Base(Run(NewHub(perUser, perTenant), steps))
  {
    if steps != [] {
      BaseAlways(perUser, perTenant, steps[..|steps| - 1]);
      BooksAlways(perUser, perTenant, steps[..|steps| - 1]);
      hide Next, Base, Books;
      StepBase(Run(NewHub(perUser, perTenant), steps[..|steps| - 1]), steps[|steps| - 1]);
    }
  }

  // ---- one connection

  /** Where a connection's events are counted from, and whether it was sent nothing before. */
  datatype Start = Start(at: nat, exact: bool)

  /** The last events sent are those meant for the user from a position on, up to q. */
  ghost predicate SentFrom(es: seq<Entry>, s: Sub, b: Start, q: nat) {
    && b.at <= |es| && q <= |es|
    && var want := Targeted(es, b.at, q, s.user);
       && |want| <= |s.sent| && s.sent[|s.sent| - |want|..] == want
       && (b.exact ==> b.at <= q && s.sent == want)
  }

  /** Everything before an entry that was meant for it and did not fit, and by then a buffer full of events. */
  ghost predicate StoppedAt(es: seq<Entry>, s: Sub, b: Start, q: nat) {
    q < |es| && Targets(es[q].to, s.user) && SentFrom(es, s, b, q) && |s.sent| >= BUFFER
  }

  ghost predicate UpToDate(l: Log, s: Sub, g: Group, b: Start, q: nat) {
    && SentFrom(l.entries, s, b, q) && (s.last.Some? ==> Below(l.entries, s.last.value, q))
    && (l.dropped <= ReadTo(g) || l.dropped <= b.at)
  }

  /** A connection has been sent everything up to the entry being dispatched; or, stalled,
      everything up to the entry that did not fit, which is the one being dispatched until
      the connection is closed; or, closed otherwise, everything its reader had served by then. */
  ghost predicate Served(l: Log, s: Sub, g: Group, x: nat, b: Start) {
    if s.stall.Some? then
      && StoppedAt(l.entries, s, b, s.stall.value)
      && (!s.closed ==> g.closing == Some(x) && s.stall.value == g.pos - 1)
    else if s.closed then s.ended.Some? && SentFrom(l.entries, s, b, s.ended.value)
    else UpToDate(l, s, g, b, Reached(g, x))
  }

  /** A connection opened without a replay id is served, if the ids of its stream rise. */
  ghost predicate Fed(h: State, x: nat, b: Start) {
    && x < |h.subs| && h.subs[x].live && h.subs[x].group < |h.groups|
    && h.groups[h.subs[x].group].tenant == h.subs[x].tenant
    && var l := LogOf(h, h.subs[x].tenant);
       Rising(l.entries) ==> Served(l, h.subs[x], h.groups[h.subs[x].group], x, b)
  }

  /** No trim of the connection's stream passes what its reader has read. */
  ghost predicate Gentle(h: State, step: Step, x: nat) {
    step.Trim? && x < |h.subs| && step.tenant == h.subs[x].tenant && h.subs[x].group < |h.groups| ==>
      step.n <= ReadTo(h.groups[h.subs[x].group])
  }

  // ---- steps elsewhere

  lemma SentGrows(l: Log, m: Log, s: Sub, b: Start, q: nat)
    requires Grown(l, m) && SentFrom(l.entries, s, b, q)
    ensures SentFrom(m.entries, s, b, q)
  {
    assert m.entries == l.entries + m.entries[|l.entries|..];
    TargetedGrows(l.entries, m.entries[|l.entries|..], b.at, q, s.user);
  }

  lemma SentSame(es: seq<Entry>, s: Sub, r: Sub, b: Start, q: nat)
    requires SentFrom(es, s, b, q) && r.sent == s.sent && r.user == s.user
    ensures SentFrom(es, r, b, q)
  {
  }

  /** The connection itself is as it was but for what its reader took, and its group's reader is where it was. */
  ghost predicate Untouched(h: State, n: State, x: nat) {
    && x < |h.subs| && x < |n.subs| && SameSub(h.subs[x], n.subs[x])
    && h.subs[x].group < |h.groups| && h.subs[x].group < |n.groups|
    && var g, f := h.groups[h.subs[x].group], n.groups[h.subs[x].group];
       SameTask(g, f) && (f.closing == g.closing || h.subs[x].closed || g.closing != Some(x))
  }

  lemma GrownAt(l: Log, m: Log, i: nat)
    requires Grown(l, m) && i < |l.entries|
    ensures |l.entries| <= |m.entries| && m.entries[i] == l.entries[i]
  {
    assert m.entries[..|l.entries|][i] == m.entries[i];
  }

  lemma GrownServed(l: Log, m: Log, s: Sub, g: Group, x: nat, b: Start)
    requires Served(l, s, g, x, b) && Grown(l, m)
    requires s.closed || s.stall.Some? || m.dropped <= ReadTo(g) || m.dropped <= b.at
    ensures Served(m, s, g, x, b)
  {
    if s.stall.Some? {
      SentGrows(l, m, s, b, s.stall.value);
      GrownAt(l, m, s.stall.value);
    } else if s.closed {
      SentGrows(l, m, s, b, s.ended.value);
    } else {
      var q := Reached(g, x);
      SentGrows(l, m, s, b, q);
      if q > 0 && q <= |l.entries| { GrownAt(l, m, q - 1); }
    }
    hide SentFrom, Grown;
  }

  lemma SameServed(l: Log, s: Sub, r: Sub, g: Group, f: Group, x: nat, b: Start)
    requires Served(l, s, g, x, b) && SameSub(s, r)
    requires SameTask(g, f) && (f.closing == g.closing || s.closed || g.closing != Some(x))
    ensures Served(l, r, f, x, b)
  {
    if s.stall.Some? {
      SentSame(l.entries, s, r, b, s.stall.value);
    } else if s.closed {
      SentSame(l.entries, s, r, b, s.ended.value);
    } else {
      SentSame(l.entries, s, r, b, Reached(g, x));
    }
    hide SentFrom;
  }

  lemma UntouchedFed(h: State, n: State, x: nat, b: Start)
    requires Fed(h, x, b) && Untouched(h, n, x) && Grown(LogOf(h, h.subs[x].tenant), LogOf(n, h.subs[x].tenant))
    requires var l, m := LogOf(h, h.subs[x].tenant), LogOf(n, h.subs[x].tenant);
      m.dropped <= l.dropped || m.dropped <= ReadTo(n.groups[h.subs[x].group])
    ensures Fed(n, x, b)
  {
    var t, k := h.subs[x].tenant, h.subs[x].group;
    var l, m := LogOf(h, t), LogOf(n, t);
    assert ReadTo(n.groups[k]) == ReadTo(h.groups[k]);
    hide Rising, Grown;
    if Rising(m.entries) {
      GrownRises(l, m);
      assert h.subs[x].closed || h.subs[x].stall.Some? || m.dropped <= ReadTo(h.groups[k]) || m.dropped <= b.at;
      hide Served;
      GrownServed(l, m, h.subs[x], h.groups[k], x, b);
      SameServed(m, h.subs[x], n.subs[x], h.groups[k], n.groups[k], x, b);
    }
  }

  lemma PublishFed(h: State, t: string, e: Entry, x: nat, b: Start)
    requires Base(h) && Fed(h, x, b)
    ensures Fed(DoPublish(h, t, e), x, b)
  {
    var n, u := DoPublish(h, t, e), h.subs[x].tenant;
    assert Cut(LogOf(h, u));
    assert Grown(LogOf(h, u), LogOf(n, u)) && Untouched(h, n, x);
    hide Base, Fed, Grown, Untouched;
    UntouchedFed(h, n, x, b);
  }

  lemma TrimFed(h: State, t: string, d: nat, x: nat, b: Start)
    requires Base(h) && Fed(h, x, b) && Gentle(h, Trim(t, d), x)
    ensures Fed(DoTrim(h, t, d), x, b)
  {
    var n, u := DoTrim(h, t, d), h.subs[x].tenant;
    assert Cut(LogOf(h, u));
    assert Grown(LogOf(h, u), LogOf(n, u)) && Untouched(h, n, x);
    hide Base, Fed, Grown, Untouched;
    UntouchedFed(h, n, x, b);
  }

  lemma SameLogFed(h: State, n: State, x: nat, b: Start)
    requires Base(h) && Fed(h, x, b) && n.logs == h.logs && Untouched(h, n, x)
    ensures Fed(n, x, b)
  {
    SameLogs(h, n);
    hide Base, Fed, Grown;
    UntouchedFed(h, n, x, b);
  }

  lemma QuietFed(h: State, step: Step, x: nat, b: Start)
    requires Base(h) && Fed(h, x, b) && Quiet(step)
    ensures Fed(Next(h, step), x, b)
  {
    var n := Next(h, step);
    QuietLeaves(h, step, x);
    hide Next, Base;
    assert Untouched(h, n, x);
    hide Fed, Untouched;
    SameLogFed(h, n, x, b);
  }

  lemma SubscribeFed(h: State, t: string, u: string, live: bool, up: bool, x: nat, b: Start)
    requires Base(h) && Fed(h, x, b)
    ensures Fed(DoSubscribe(h, t, u, live, up), x, b)
  {
    var n := DoSubscribe(h, t, u, live, up);
    assert n.logs == h.logs && Untouched(h, n, x) by { hide Full; }
    hide DoSubscribe, Base, Fed, Untouched;
    SameLogFed(h, n, x, b);
  }

  // ---- the steps of its reader

  lemma ReadServed(l: Log, s: Sub, g: Group, f: Group, x: nat, b: Start)
    requires LogOk(l) && Served(l, s, g, x, b) && Idle(g) && g.batch == [] && Advances(l, g, f) && f.pos <= |l.entries|
    ensures Served(l, s, f, x, b)
  {
    if !s.closed && s.stall.None? {
      if g.pos < l.dropped {
        assert Targeted(l.entries, b.at, f.pos, s.user) == [];
        if s.last.Some? { BelowGrows(l, s.last.value, g.pos, f.pos); }
      }
    }
  }

  lemma ReadFed(h: State, k: nat, count: nat, x: nat, b: Start)
    requires Base(h) && Fed(h, x, b)
    ensures Fed(DoRead(h, k, count), x, b)
  {
    var n := DoRead(h, k, count);
    if n != h {
      if h.subs[x].group == k {
        var g := h.groups[k];
        var l := LogOf(h, g.tenant);
        assert ReaderOk(h, k) && Cut(l);
        ReadQueue(h, k, count);
        hide After, Upto, Cut, Rising, Served;
        if Rising(l.entries) {
          ReadReads(l, g, count);
          ReadServed(l, h.subs[x], g, n.groups[k], x, b);
        }
      } else {
        assert n.logs == h.logs && Untouched(h, n, x);
        hide DoRead, Base, Fed, Untouched;
        SameLogFed(h, n, x, b);
      }
    }
  }

  lemma SentSkips(es: seq<Entry>, s: Sub, b: Start, q: nat)
    requires SentFrom(es, s, b, q) && q < |es| && !Targets(es[q].to, s.user)
    ensures SentFrom(es, s, b, q + 1)
  {
    assert Targeted(es, b.at, q + 1, s.user) == Targeted(es, b.at, q, s.user);
  }

  lemma DispatchServed(l: Log, s: Sub, g: Group, x: nat, order: seq<nat>, b: Start)
    requires LogOk(l) && Reading(l, g) && Idle(g) && g.batch != [] && Served(l, s, g, x, b)
    requires !s.closed ==> (x in order <==> Targets(g.batch[0].to, s.user))
    ensures Served(l, s, Dispatched(g, order), x, b)
  {
    DispatchReads(l, g, order);
    if s.stall.None? && !s.closed && x !in order {
      SentSkips(l.entries, s, b, g.pos);
      if s.last.Some? { BelowGrows(l, s.last.value, g.pos, g.pos + 1); }
    }
    hide SentFrom, LogOk, Below, Reading;
    assert ReadTo(Dispatched(g, order)) == ReadTo(g);
  }

  lemma DispatchFed(h: State, k: nat, order: seq<nat>, x: nat, b: Start)
    requires Books(h) && Base(h) && Fed(h, x, b)
    ensures Fed(DoDispatch(h, k, order), x, b)
  {
    var n := DoDispatch(h, k, order);
    if n != h {
      if h.subs[x].group == k {
        var g := h.groups[k];
        var l := LogOf(h, g.tenant);
        assert ReaderOk(h, k) && Cut(l);
        assert x in order <==> x in g.conns && Targets(g.batch[0].to, h.subs[x].user);
        if !h.subs[x].closed { OpenSeat(h, x); }
        hide Cut, Rising, Served, IsFanOut, Books, Reading;
        if Rising(l.entries) { DispatchServed(l, h.subs[x], g, x, order, b); }
      } else {
        assert n.logs == h.logs && Untouched(h, n, x);
        hide DoDispatch, Base, Fed, Untouched, Books;
        SameLogFed(h, n, x, b);
      }
    }
  }

  lemma SentOneMore(es: seq<Entry>, s: Sub, r: Sub, b: Start, q: nat)
    requires SentFrom(es, s, b, q) && q < |es| && Targets(es[q].to, s.user) && r.user == s.user
    requires r.sent == s.sent + [EventOf(es[q])]
    ensures SentFrom(es, r, b, q + 1)
  {
    var want := Targeted(es, b.at, q, s.user);
    if b.at <= q {
      assert Targeted(es, b.at, q + 1, s.user) == want + [EventOf(es[q])];
      assert r.sent[|r.sent| - |want| - 1..] == s.sent[|s.sent| - |want|..] + [EventOf(es[q])];
    }
  }

  /** The connection the entry is pushed to gets it, or stalls at it with its buffer full. */
  lemma PushServed(l: Log, s: Sub, g: Group, x: nat, b: Start)
    requires LogOk(l) && Reading(l, g) && g.todo != [] && g.todo[0] == x && x !in g.todo[1..] && g.closing.None?
    requires Served(l, s, g, x, b) && Targets(g.entry.value.to, s.user)
    ensures var (r, fits) := Push(s, EventOf(g.entry.value));
      Served(l, if fits then r else Stall(r, g), g.(todo := g.todo[1..], closing := if fits then None else Some(x)), x,
             b)
  {
    if !s.closed {
      if s.last.Some? { BelowIsLess(l, s.last.value, g.pos - 1, g.pos - 1); }
      var (r, fits) := Push(s, EventOf(g.entry.value));
      if fits {
        SentOneMore(l.entries, s, r, b, g.pos - 1);
      } else {
        SentSame(l.entries, s, Stall(r, g), b, g.pos - 1);
      }
      hide SentFrom;
    }
  }

  lemma PushOthers(l: Log, s: Sub, g: Group, f: Group, y: nat, b: Start)
    requires g.todo != [] && g.todo[0] != y && g.closing.None? && f == g.(todo := g.todo[1..], closing := f.closing)
    requires Served(l, s, g, y, b)
    ensures Served(l, s, f, y, b)
  {
    assert y in g.todo <==> y in g.todo[1..];
  }

  lemma PushNextFed(h: State, k: nat, x: nat, b: Start)
    requires Base(h) && Fed(h, x, b)
    ensures Fed(DoPushNext(h, k), x, b)
  {
    var n := DoPushNext(h, k);
    if n != h {
      var g := h.groups[k];
      var y := g.todo[0];
      var l := LogOf(h, g.tenant);
      assert ReaderOk(h, k) && Cut(l) && Waits(h, k, y, g.entry.value);
      PushSameStart(h.subs[y], EventOf(g.entry.value));
      if h.subs[x].group != k {
        assert n.logs == h.logs && Untouched(h, n, x);
        hide DoPushNext, Base, Fed, Untouched;
        SameLogFed(h, n, x, b);
      } else {
        hide Served, Push, Cut, Rising, Reading;
        if Rising(l.entries) && y == x {
          PushServed(l, h.subs[x], g, x, b);
        } else if Rising(l.entries) {
          PushOthers(l, h.subs[x], g, n.groups[k], x, b);
        }
      }
    }
  }

  // ---- closing

  lemma ClosedServed(l: Log, s: Sub, g: Group, f: Group, x: nat, b: Start)
    requires Served(l, s, g, x, b) && !s.closed
    ensures Served(l, s.(closed := true, ended := Some(Reached(g, x))), f, x, b)
  {
    SentSame(l.entries, s, s.(closed := true, ended := Some(Reached(g, x))), b,
             if s.stall.Some? then s.stall.value else Reached(g, x));
  }

  lemma CloseFed(h: State, y: nat, x: nat, b: Start)
    requires Base(h) && Fed(h, x, b)
    ensures Fed(DoClose(h, y), x, b)
  {
    var n, k := DoClose(h, y), h.subs[x].group;
    CloseShape(h, y);
    assert SameReader(h.groups[k], n.groups[k]);
    assert n.subs[x] == h.subs[x] || (x == y && n.subs[x] == Shut(h, x));
    hide DoClose, Served;
    if n.subs[x] == h.subs[x] {
      assert Untouched(h, n, x);
      hide Base, Fed, Untouched;
      SameLogFed(h, n, x, b);
    } else {
      hide Rising;
      var l := LogOf(h, h.subs[x].tenant);
      if Rising(l.entries) { ClosedServed(l, h.subs[x], h.groups[k], n.groups[k], x, b); }
    }
  }

  lemma CloseStalledFed(h: State, k: nat, x: nat, b: Start)
    requires Base(h) && Fed(h, x, b)
    ensures Fed(DoCloseStalled(h, k), x, b)
  {
    if k < |h.groups| && h.groups[k].closing.Some? {
      var y, j := h.groups[k].closing.value, h.subs[x].group;
      var m, n := DoClose(h, y), DoCloseStalled(h, k);
      CloseShape(h, y);
      assert SameReader(h.groups[j], m.groups[j]) && SameReader(h.groups[k], m.groups[k]);
      assert m.subs[x] == h.subs[x] || (x == y && m.subs[x] == Shut(h, x));
      hide DoClose, Served;
      if m.subs[x] == h.subs[x] && (x != y || h.subs[x].closed) {
        assert Untouched(h, n, x);
        hide Base, Fed, Untouched;
        SameLogFed(h, n, x, b);
      } else {
        hide Rising;
        var l := LogOf(h, h.subs[x].tenant);
        if Rising(l.entries) { ClosedServed(l, h.subs[x], h.groups[j], n.groups[j], x, b); }
      }
    }
  }

  // ---- every run

  lemma StepFed(h: State, step: Step, x: nat, b: Start)
    requires Books(h) && Base(h) && Fed(h, x, b) && Gentle(h, step, x)
    ensures Fed(Next(h, step), x, b)
  {
    hide Fed, Base, Books, Gentle, DoPublish, DoTrim, DoSubscribe, DoRead, DoDispatch, DoPushNext, DoCloseStalled;
    hide DoClose;
    match step
    case Subscribe(t, u, live, up) => SubscribeFed(h, t, u, live, up, x, b);
    case Read(k, count) => ReadFed(h, k, count, x, b);
    case Dispatch(k, order) => DispatchFed(h, k, order, x, b);
    case PushNext(k) => PushNextFed(h, k, x, b);
    case CloseStalled(k) => CloseStalledFed(h, k, x, b);
    case Close(y) => CloseFed(h, y, x, b);
    case Publish(t, e) => PublishFed(h, t, e, x, b);
    case Trim(t, d) => TrimFed(h, t, d, x, b);
    case _ => hide Next; QuietFed(h, step, x, b);
  }

  /** A run in which no trim of the connection's stream passes what its reader has read. */
  ghost predicate GentleRun(h: State, steps: seq<Step>, x: nat) {
    steps != [] ==>
      var front := steps[..|steps| - 1]; GentleRun(h, front, x) && Gentle(Run(h, front), steps[|steps| - 1], x)
  }

  lemma {:induction false} RunFed(perUser: int, perTenant: int, before: seq<Step>, steps: seq<Step>, x: nat, b: Start)
    requires var h := Run(NewHub(perUser, perTenant), before); Fed(h, x, b) && GentleRun(h, steps, x)
    ensures Fed(Run(Run(NewHub(perUser, perTenant), before), steps), x, b)
  {
    if steps != [] {
      var hub := NewHub(perUser, perTenant);
      var front := steps[..|steps| - 1];
      RunFed(perUser, perTenant, before, front, x, b);
      RunOn(hub, before, front);
      BooksAlways(perUser, perTenant, before + front);
      BaseAlways(perUser, perTenant, before + front);
      hide Next, Fed, Base, Books, Gentle;
      StepFed(Run(Run(hub, before), front), steps[|steps| - 1], x, b);
    }
  }

  // ---- the promise

  /** A connection that was sent nothing yet. */
  lemma FreshFed(n: State, x: nat, b: Start)
    requires x < |n.subs| && n.subs[x].live && n.subs[x].group < |n.groups|
    requires n.groups[n.subs[x].group].tenant == n.subs[x].tenant
    requires n.subs[x].sent == [] && n.subs[x].last.None? && !n.subs[x].closed && n.subs[x].stall.None?
    requires var l, g := LogOf(n, n.subs[x].tenant), n.groups[n.subs[x].group];
      && x !in g.todo && g.pos <= b.at <= |l.entries| && (b.exact ==> b.at == g.pos)
      && (l.dropped <= ReadTo(g) || l.dropped <= b.at)
    ensures Fed(n, x, b)
  {
    var l, g := LogOf(n, n.subs[x].tenant), n.groups[n.subs[x].group];
    assert Targeted(l.entries, b.at, g.pos, n.subs[x].user) == [];
  }

  lemma Opens(h: State, t: string, u: string, up: bool)
    requires Books(h) && Base(h)
    ensures var n := DoSubscribe(h, t, u, true, up); |n.subs| > |h.subs| ==>
      && |n.subs| == |h.subs| + 1 && n.subs[|h.subs|].tenant == t && n.subs[|h.subs|].user == u
      && Fed(n, |h.subs|, Start(|LogOf(h, t).entries|, false))
      && (Unread(h, t) ==> Position(h, t) <= |LogOf(h, t).entries| && Fed(n, |h.subs|, Start(Position(h, t), true)))
  {
    var n, x := DoSubscribe(h, t, u, true, up), |h.subs|;
    if |n.subs| > |h.subs| {
      SubscribeBase(h, t, u, true, up);
      var k := n.subs[x].group;
      JoinedBooks(h, t);
      assert ReaderOk(n, k) && Cut(LogOf(h, t)) && n.groups[k].tenant == t && n.groups[k].pos == Position(h, t);
      assert n.logs == h.logs;
      assert x !in n.groups[k].todo by { if t in h.tenants { assert ReaderOk(h, k); NotListed(h, k); } }
      assert Unread(h, t) ==> LogOf(h, t).dropped <= ReadTo(n.groups[k]);
      hide Books, Base, Fed, Queue;
      FreshFed(n, x, Start(|LogOf(h, t).entries|, false));
      if Unread(h, t) { FreshFed(n, x, Start(Position(h, t), true)); }
    }
  }

  lemma NotListed(h: State, k: nat)
    requires k < |h.groups| && Queue(h, k)
    ensures |h.subs| !in h.groups[k].todo
  {
    forall y | y in h.groups[k].todo ensures y < |h.subs| { assert Waits(h, k, y, h.groups[k].entry.value); }
  }

  /** Where a tenant's reader stands, or would begin. */
  function Position(h: State, t: string): nat {
    if t in h.tenants && h.tenants[t] < |h.groups| then h.groups[h.tenants[t]].pos else |LogOf(h, t).entries|
  }

  /** Nothing was trimmed that the tenant's running reader has yet to read. */
  ghost predicate Unread(h: State, t: string) {
    t in h.tenants && h.tenants[t] < |h.groups| ==> LogOf(h, t).dropped <= ReadTo(h.groups[h.tenants[t]])
  }

  /** A connection opened without a replay id, in any reachable state, whatever was trimmed
      before: as long as from then on its own tenant's stream is not trimmed ahead of its
      reader, and the ids of that stream rise, the last events it was sent are exactly the
      entries meant for it that were published after Subscribe returned, in order and with no
      gap: up to the entry being dispatched while it is open, up to the first entry that did not
      fit, with a full buffer, when it stalled, and up to where its reader had served it when it
      was closed. If nothing unread had been trimmed by then, that holds from the reader's
      position on, and it was sent nothing else. */
  lemma NoGap(perUser: int, perTenant: int, before: seq<Step>, t: string, u: string, up: bool, steps: seq<Step>)
    ensures
      var h := Run(NewHub(perUser, perTenant), before);
      var m := Next(h, Subscribe(t, u, true, up));
      var x := |h.subs|;
      |m.subs| > x && GentleRun(m, steps, x) ==>
        && var n := Run(m, steps);
        && x < |n.subs| && n.subs[x].tenant == t && n.subs[x].user == u
        && Fed(n, x, Start(|LogOf(h, t).entries|, false))
        && (Unread(h, t) ==> Position(h, t) <= |LogOf(h, t).entries| && Fed(n, x, Start(Position(h, t), true)))
  {
    var hub := NewHub(perUser, perTenant);
    var h := Run(hub, before);
    var upto := before + [Subscribe(t, u, true, up)];
    assert upto[..|upto| - 1] == before;
    var m, x := Run(hub, upto), |h.subs|;
    BooksAlways(perUser, perTenant, before);
    BaseAlways(perUser, perTenant, before);
    Opens(h, t, u, up);
    if |m.subs| > x && GentleRun(m, steps, x) {
      RunLater(m, steps);
      assert SameStart(m.subs[x], Run(m, steps).subs[x]);
      hide Fed, Next, Books, Base, GentleRun, Later;
      RunFed(perUser, perTenant, upto, steps, x, Start(|LogOf(h, t).entries|, false));
      if Unread(h, t) { RunFed(perUser, perTenant, upto, steps, x, Start(Position(h, t), true)); }
    }
  }

  /** So when in such a run the ids of the stream rise, and the connection is open, has not
      stalled, and its reader has caught up with the stream: the last events it was sent are all
      the entries meant for it that were published after Subscribe returned. */
  lemma CaughtUp(perUser: int, perTenant: int, before: seq<Step>, t: string, u: string, up: bool, steps: seq<Step>)
    ensures
      var h := Run(NewHub(perUser, perTenant), before);
      var m := Next(h, Subscribe(t, u, true, up));
      var x, n := |h.subs|, Run(m, steps);
      |m.subs| > x && GentleRun(m, steps, x) ==>
        && x < |n.subs| && n.subs[x].group < |n.groups|
        && var s, g, es := n.subs[x], n.groups[n.subs[x].group], LogOf(n, t).entries;
        Rising(es) && !s.closed && s.stall.None? && g.todo == [] && g.pos == |es| ==>
          var want := Targeted(es, |LogOf(h, t).entries|, |es|, u);
          |want| <= |s.sent| && s.sent[|s.sent| - |want|..] == want
  {
    NoGap(perUser, perTenant, before, t, u, up, steps);
    hide Run, Next, GentleRun, Rising, Targeted;
  }

  /** A connection stalls only when its buffer is full. */
  lemma StallsWhenFull(h: State, k: nat, x: nat)
    requires x < |h.subs| && |h.subs[x].sent| - h.subs[x].taken < BUFFER
    ensures DoPushNext(h, k).subs[x].stall == h.subs[x].stall
  {
  }
}
