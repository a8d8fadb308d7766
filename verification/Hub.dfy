/** The event hub as a state machine: tenant streams, one reader per tenant with
    connections, fan-out, replay, bounded buffers, quotas and shutdown. Each step
    is one region of the code under a lock (or one call to the stream store), so a
    sequence of steps is an interleaving of the goroutines. */
module Hub {
  import opened Optional

  // ---- stream ids

  datatype Id = Id(ms: int, seqno: int)

  predicate Less(a: Id, b: Id) { a.ms < b.ms || (a.ms == b.ms && a.seqno < b.seqno) }

  const ZERO := Id(0, 0)

  // ---- entries and events

  /** The recipients of an entry: everyone, or the users named. */
  datatype Recipients = Everyone | Only(users: set<string>)

  predicate Targets(to: Recipients, user: string) { to.Everyone? || user in to.users }

  datatype Entry = Entry(id: Id, to: Recipients, data: string)

  /** What a connection receives: an entry, or a reset that has no id. */
  datatype Event = Live(id: Id, data: string) | Reset

  function EventOf(e: Entry): Event { Live(e.id, e.data) }

  /** All entries ever appended; the store has dropped the first of them. */
  datatype Log = Log(entries: seq<Entry>, dropped: nat)

  const NO_LOG := Log([], 0)

  // ---- connections and readers

  const BUFFER := 32
  const BATCH := 100

  /** An open or closed stream: what it was sent, how much of that its reader has
      taken, the highest id sent, and the replay entries still to be pushed.
      live: opened without a replay id.
      stall: the position of the entry that did not fit.
      ended: how far its reader had served it when it was closed. */
  datatype Sub = Sub(tenant: string, user: string, group: nat, last: Option<Id>, closed: bool,
                     sent: seq<Event>, taken: nat, replay: seq<Entry>, live: bool, stall: Option<nat>,
                     ended: Option<nat>)

  /** The connections of a tenant and their reader loop: the id read up to, the
      position in the log that stands for, what was read and not yet dispatched,
      the entry being dispatched and the connections it must still be pushed to,
      and the connection about to be closed. */
  datatype Group = Group(tenant: string, conns: set<nat>, byUser: map<string, nat>, cancelled: bool,
                         last: Id, pos: nat, batch: seq<Entry>, entry: Option<Entry>, todo: seq<nat>,
                         closing: Option<nat>)

  /** The hub: its limits, whether it was cancelled, the current group of each
      tenant, every group and connection there ever was, and the streams.
      doomed: the connections that Hub.Close found open. */
  datatype State = State(perUser: nat, perTenant: nat, cancelled: bool, tenants: map<string, nat>,
                         groups: seq<Group>, subs: seq<Sub>, logs: map<string, Log>, doomed: Option<set<nat>>)

  /** Limits that are not positive get their defaults. */
  function Limit(n: int, default: nat): nat { if n <= 0 then default else n }

  function NewHub(perUser: int, perTenant: int): State {
    State(Limit(perUser, 5), Limit(perTenant, 2000), false, map[], [], [], map[], None)
  }

  function LogOf(h: State, t: string): Log { if t in h.logs then h.logs[t] else NO_LOG }

  // ---- push

  /** Queues an event unless the stream is closed, the event was already sent, or
      the buffer is full; false says it did not fit. */
  function Push(s: Sub, ev: Event): (Sub, bool) {
    if s.closed || (ev.Live? && s.last.Some? && !Less(s.last.value, ev.id)) then (s, true)
    else
      var s := if ev.Live? then s.(last := Some(ev.id)) else s;
      if |s.sent| - s.taken < BUFFER then (s.(sent := s.sent + [ev]), true) else (s, false)
  }

  // ---- steps

  datatype Step =
    | Publish(tenant: string, entry: Entry)
    | Trim(tenant: string, n: nat)
    | Subscribe(tenant: string, user: string, live: bool, up: bool)
    | ReplayReset(sub: nat)
    | ReplayRead(sub: nat, after: Id, count: nat)
    | ReplayPush(sub: nat)
    | Read(group: nat, count: nat)
    | Dispatch(group: nat, order: seq<nat>)
    | PushNext(group: nat)
    | CloseStalled(group: nat)
    | Close(sub: nat)
    | Take(sub: nat)
    | Cancel
    | Snapshot

  /** The entry is appended whatever its id: a clock that goes back gives one below those before it. */
  function DoPublish(h: State, t: string, e: Entry): State {
    var l := LogOf(h, t);
    h.(logs := h.logs[t := l.(entries := l.entries + [e])])
  }

  function DoTrim(h: State, t: string, n: nat): State {
    var l := LogOf(h, t);
    if l.dropped <= n <= |l.entries| then h.(logs := h.logs[t := l.(dropped := n)]) else h
  }

  /** The first connection of a tenant starts a reader at the tail of the stream. */
  function Joined(h: State, t: string): State {
    if t in h.tenants then h
    else
      var l := LogOf(h, t);
      var start := if l.dropped < |l.entries| then l.entries[|l.entries| - 1].id else ZERO;
      var g := Group(t, {}, map[], false, start, |l.entries|, [], None, [], None);
      h.(tenants := h.tenants[t := |h.groups|], groups := h.groups + [g])
  }

  function Uses(g: Group, u: string): nat { if u in g.byUser then g.byUser[u] else 0 }

  /** A connection enters a group: the set and its user's counter grow. */
  function Enter(g: Group, x: nat, u: string): Group {
    g.(conns := g.conns + {x}, byUser := g.byUser[u := Uses(g, u) + 1])
  }

  /** A connection leaves a group; the last one out stops the reader. */
  function Leave(g: Group, x: nat, u: string): Group {
    var conns := g.conns - {x};
    g.(conns := conns, byUser := if Uses(g, u) <= 1 then g.byUser - {u} else g.byUser[u := Uses(g, u) - 1],
       cancelled := g.cancelled || conns == {})
  }

  predicate Full(h: State, g: Group, u: string) { Uses(g, u) >= h.perUser || |g.conns| >= h.perTenant }

  function Seat(h: State, t: string, u: string, live: bool, k: nat): State
    requires k < |h.groups|
  {
    var g := h.groups[k];
    h.(subs := h.subs + [Sub(t, u, k, None, false, [], 0, [], live, None, None)],
       groups := h.groups[k := Enter(g, |h.subs|, u)])
  }

  /** up: the stream store answers when asked for the tail. */
  function DoSubscribe(h: State, t: string, u: string, live: bool, up: bool): State {
    if h.cancelled || (t !in h.tenants && !up) then h
    else
      var h := Joined(h, t);
      var k := h.tenants[t];
      if k >= |h.groups| || Full(h, h.groups[k], u) then h else Seat(h, t, u, live, k)
  }

  function DoReplayReset(h: State, k: nat): State {
    if k < |h.subs| && !h.subs[k].live then h.(subs := h.subs[k := Push(h.subs[k], Reset).0]) else h
  }

  /** The retained entries after an id, at most so many. */
  function After(l: Log, id: Id): (r: seq<Entry>)
    ensures |r| <= |l.entries|
  {
    AfterFrom(l.entries, if l.dropped <= |l.entries| then l.dropped else |l.entries|, id)
  }

  function AfterFrom(es: seq<Entry>, i: nat, id: Id): (r: seq<Entry>)
    requires i <= |es|
    ensures |r| <= |es| - i
    decreases |es| - i
  {
    if i == |es| then [] else (if Less(id, es[i].id) then [es[i]] else []) + AfterFrom(es, i + 1, id)
  }

  function Upto<T>(s: seq<T>, n: nat): seq<T> { if n < |s| then s[..n] else s }

  function DoReplayRead(h: State, k: nat, id: Id, count: nat): State {
    if k < |h.subs| && !h.subs[k].live
    then h.(subs := h.subs[k := h.subs[k].(replay := Upto(After(LogOf(h, h.subs[k].tenant), id), count))])
    else h
  }

  /** The result of a replay push is not looked at: an event that does not fit is lost. */
  function DoReplayPush(h: State, k: nat): State {
    if k < |h.subs| && !h.subs[k].live && h.subs[k].replay != [] then
      var s := h.subs[k];
      var e := s.replay[0];
      var s := s.(replay := s.replay[1..]);
      h.(subs := h.subs[k := if Targets(e.to, s.user) then Push(s, EventOf(e)).0 else s])
    else h
  }

  predicate Idle(g: Group) { g.todo == [] && g.closing.None? }

  /** Reads the next retained entries after the reader's id. The position is where in the log they begin. */
  function DoRead(h: State, k: nat, count: nat): State {
    if k < |h.groups| && Idle(h.groups[k]) && h.groups[k].batch == [] && 0 < count <= BATCH then
      var g := h.groups[k];
      var l := LogOf(h, g.tenant);
      var es := After(l, g.last);
      h.(groups := h.groups[k := g.(pos := |l.entries| - |es|, batch := Upto(es, count))])
    else h
  }

  /** The targeted connections, in the order the map iteration gives them. */
  ghost predicate IsFanOut(h: State, g: Group, e: Entry, order: seq<nat>) {
    && (forall i, j :: 0 <= i < j < |order| ==> order[i] != order[j])
    && (forall x :: x in order <==> x in g.conns && x < |h.subs| && Targets(e.to, h.subs[x].user))
  }

  function Dispatched(g: Group, order: seq<nat>): Group
    requires g.batch != []
  {
    g.(last := g.batch[0].id, pos := g.pos + 1, entry := Some(g.batch[0]), batch := g.batch[1..], todo := order)
  }

  ghost predicate CanDispatch(h: State, g: Group, order: seq<nat>) {
    Idle(g) && g.batch != [] && IsFanOut(h, g, g.batch[0], order)
  }

  ghost function DoDispatch(h: State, k: nat, order: seq<nat>): State {
    if k < |h.groups| && CanDispatch(h, h.groups[k], order) then
      var g := h.groups[k];
      h.(groups := h.groups[k := Dispatched(g, order)])
    else h
  }

  /** The entry being dispatched, the one before the reader's position, did not fit. */
  function Stall(s: Sub, g: Group): Sub { s.(stall := Some(if g.pos > 0 then g.pos - 1 else 0)) }

  predicate CanPush(h: State, g: Group) { g.todo != [] && g.closing.None? && g.entry.Some? && g.todo[0] < |h.subs| }

  function DoPushNext(h: State, k: nat): State {
    if k < |h.groups| && CanPush(h, h.groups[k]) then
      var g := h.groups[k];
      var x := g.todo[0];
      var (s, fits) := Push(h.subs[x], EventOf(g.entry.value));
      h.(subs := h.subs[x := if fits then s else Stall(s, g)],
         groups := h.groups[k := g.(todo := g.todo[1..], closing := if fits then None else Some(x))])
    else h
  }

  /** Up to where a group's reader has served a connection. */
  function Reached(g: Group, x: nat): nat { if x in g.todo && g.pos > 0 then g.pos - 1 else g.pos }

  /** A connection as it is once closed. */
  function Shut(h: State, x: nat): Sub
    requires x < |h.subs|
  {
    var s := h.subs[x];
    s.(closed := true, ended := Some(if s.group < |h.groups| then Reached(h.groups[s.group], x) else 0))
  }

  /** Closing, once: leaves the tenant's current group, which goes with its last connection. */
  function DoClose(h: State, x: nat): State {
    if x < |h.subs| && !h.subs[x].closed then
      var s := h.subs[x];
      var h := h.(subs := h.subs[x := Shut(h, x)]);
      if s.tenant in h.tenants && h.tenants[s.tenant] < |h.groups| then
        var k := h.tenants[s.tenant];
        var g := Leave(h.groups[k], x, s.user);
        h.(groups := h.groups[k := g], tenants := if g.conns == {} then h.tenants - {s.tenant} else h.tenants)
      else h
    else h
  }

  function DoCloseStalled(h: State, k: nat): State {
    if k < |h.groups| && h.groups[k].closing.Some? then
      var h' := DoClose(h, h.groups[k].closing.value);
      if k < |h'.groups| then h'.(groups := h'.groups[k := h'.groups[k].(closing := None)]) else h'
    else h
  }

  function DoTake(h: State, x: nat): State {
    if x < |h.subs| && h.subs[x].taken < |h.subs[x].sent|
    then h.(subs := h.subs[x := h.subs[x].(taken := h.subs[x].taken + 1)]) else h
  }

  function StillOpen(subs: seq<Sub>): set<nat> { set x | 0 <= x < |subs| && !subs[x].closed }

  /** Hub.Close cancels, then notes the open connections under the lock, then closes each of them. */
  function DoSnapshot(h: State): State {
    if h.cancelled then h.(doomed := Some(StillOpen(h.subs))) else h
  }

  ghost function Next(h: State, step: Step): State {
    match step
    case Publish(t, e) => DoPublish(h, t, e)
    case Trim(t, n) => DoTrim(h, t, n)
    case Subscribe(t, u, live, up) => DoSubscribe(h, t, u, live, up)
    case ReplayReset(x) => DoReplayReset(h, x)
    case ReplayRead(x, id, n) => DoReplayRead(h, x, id, n)
    case ReplayPush(x) => DoReplayPush(h, x)
    case Read(k, n) => DoRead(h, k, n)
    case Dispatch(k, order) => DoDispatch(h, k, order)
    case PushNext(k) => DoPushNext(h, k)
    case CloseStalled(k) => DoCloseStalled(h, k)
    case Close(x) => DoClose(h, x)
    case Take(x) => DoTake(h, x)
    case Cancel => h.(cancelled := true)
    case Snapshot => DoSnapshot(h)
  }

  /** A run: any steps, in any order. */
  ghost function Run(h: State, steps: seq<Step>): State {
    if steps == [] then h else Next(Run(h, steps[..|steps| - 1]), steps[|steps| - 1])
  }
}
