/** Nobody receives what is not theirs: over every interleaving, replay included, each
    event a connection is sent is an entry of its own tenant's stream that is
    addressed to its user. */
module HubGenuine {
  import opened Optional
  import opened Hub
  import opened HubBooks
  import opened HubComplete

  // ---- the invariant

  ghost predicate Mine(es: seq<Entry>, u: string, ev: Event) {
    exists e <- es :: Live(e.id, e.data) == ev && Targets(e.to, u)
  }

  ghost predicate SubGenuine(es: seq<Entry>, s: Sub) {
    && (forall ev <- s.sent :: ev.Live? ==> Mine(es, s.user, ev))
    && (forall e <- s.replay :: e in es)
  }

  predicate Addressed(h: State, g: Group, x: nat) {
    g.entry.Some? && x < |h.subs| && h.subs[x].tenant == g.tenant && Targets(g.entry.value.to, h.subs[x].user)
  }

  ghost predicate GroupGenuine(h: State, g: Group) {
    var es := LogOf(h, g.tenant).entries;
    && (forall e <- g.batch :: e in es)
    && (g.todo != [] ==> g.entry.Some? && g.entry.value in es)
    && (forall x <- g.todo :: Addressed(h, g, x))
  }

  ghost predicate Genuine(h: State) {
    && (forall x | 0 <= x < |h.subs| :: SubGenuine(LogOf(h, h.subs[x].tenant).entries, h.subs[x]))
    && (forall k | 0 <= k < |h.groups| :: GroupGenuine(h, h.groups[k]))
  }

  // ---- what is left as it was

  lemma MineStays(es: seq<Entry>, fs: seq<Entry>, u: string, ev: Event)
    requires es <= fs && Mine(es, u, ev)
    ensures Mine(fs, u, ev)
  {
    var e :| e in es && Live(e.id, e.data) == ev && Targets(e.to, u);
    assert e in fs;
  }

  predicate SameInbox(s: Sub, r: Sub) { s.sent == r.sent && s.replay == r.replay && s.user == r.user }

  lemma SubStays(es: seq<Entry>, fs: seq<Entry>, s: Sub, r: Sub)
    requires es <= fs && SubGenuine(es, s) && SameInbox(s, r)
    ensures SubGenuine(fs, r)
  {
    forall ev <- r.sent | ev.Live? ensures Mine(fs, r.user, ev) { MineStays(es, fs, s.user, ev); }
  }

  /** A reader that has read nothing new and dispatched nothing new. */
  ghost predicate SameFeed(g: Group, f: Group) {
    f.tenant == g.tenant && f.batch == g.batch && f.entry == g.entry && forall x <- f.todo :: x in g.todo
  }

  lemma GroupStays(h: State, n: State, g: Group, f: Group)
    requires Later(h, n) && GroupGenuine(h, g) && SameFeed(g, f)
    ensures GroupGenuine(n, f)
  {
    assert LogOf(h, g.tenant).entries <= LogOf(n, g.tenant).entries;
    forall x <- f.todo ensures Addressed(n, f, x) {
      assert x in g.todo && Addressed(h, g, x) && SameStart(h.subs[x], n.subs[x]);
    }
    if f.todo != [] { assert f.todo[0] in g.todo; }
  }

  /** A step has to account for the connections and readers it changes. */
  lemma GenuineStep(h: State, n: State)
    requires Genuine(h) && Later(h, n) && |h.groups| <= |n.groups|
    requires forall x | 0 <= x < |n.subs| :: (x < |h.subs| && SameInbox(h.subs[x], n.subs[x])) || SubGenuine(LogOf(n,
        n.subs[x].tenant).entries, n.subs[x])
    requires forall k | 0 <= k < |n.groups| ::
      (k < |h.groups| && SameFeed(h.groups[k], n.groups[k])) || GroupGenuine(n, n.groups[k])
    ensures Genuine(n)
  {
    forall x | 0 <= x < |n.subs| ensures SubGenuine(LogOf(n, n.subs[x].tenant).entries, n.subs[x]) {
      if x < |h.subs| && SameInbox(h.subs[x], n.subs[x]) {
        assert SameStart(h.subs[x], n.subs[x]);
        var t := n.subs[x].tenant;
        assert LogOf(h, t).entries <= LogOf(n, t).entries;
        SubStays(LogOf(h, t).entries, LogOf(n, t).entries, h.subs[x], n.subs[x]);
      }
    }
    forall k | 0 <= k < |n.groups| ensures GroupGenuine(n, n.groups[k]) {
      if k < |h.groups| && SameFeed(h.groups[k], n.groups[k]) { GroupStays(h, n, h.groups[k], n.groups[k]); }
    }
  }

  // ---- what is new

  lemma PushMine(es: seq<Entry>, s: Sub, e: Entry)
    requires SubGenuine(es, s) && e in es && Targets(e.to, s.user)
    ensures SubGenuine(es, Push(s, EventOf(e)).0)
  {
    assert Mine(es, s.user, EventOf(e));
  }

  lemma StallMine(es: seq<Entry>, s: Sub, g: Group)
    requires SubGenuine(es, s)
    ensures SubGenuine(es, Stall(s, g))
  {
  }

  lemma PushReset(es: seq<Entry>, s: Sub)
    requires SubGenuine(es, s)
    ensures SubGenuine(es, Push(s, Reset).0)
  {
  }

  lemma {:induction false} AfterAreEntries(es: seq<Entry>, i: nat, id: Id)
    requires i <= |es|
    ensures forall e <- AfterFrom(es, i, id) :: e in es
    decreases |es| - i
  {
    if i < |es| { AfterAreEntries(es, i + 1, id); }
  }

  lemma ReadAreEntries(l: Log, id: Id, count: nat)
    ensures forall e <- Upto(After(l, id), count) :: e in l.entries
  {
    AfterAreEntries(l.entries, if l.dropped <= |l.entries| then l.dropped else |l.entries|, id);
  }

  /** One connection changes, and still has only its own. */
  lemma OneSub(h: State, x: nat, s: Sub)
    requires Genuine(h) && x < |h.subs| && SameStart(h.subs[x], s) && SubGenuine(LogOf(h, s.tenant).entries, s)
    ensures Genuine(h.(subs := h.subs[x := s]))
  {
    var n := h.(subs := h.subs[x := s]);
    SubLater(h, x, s);
    hide SubGenuine, GroupGenuine, Later;
    GenuineStep(h, n);
  }

  lemma ReplayGenuine(h: State, x: nat, id: Id, count: nat)
    requires Genuine(h)
    ensures Genuine(DoReplayReset(h, x)) && Genuine(DoReplayRead(h, x, id, count))
  {
    if x < |h.subs| {
      var s := h.subs[x];
      var l := LogOf(h, s.tenant);
      assert SubGenuine(l.entries, s);
      PushReset(l.entries, s);
      PushSameStart(s, Reset);
      ReadAreEntries(l, id, count);
      var r := s.(replay := Upto(After(l, id), count));
      assert SubGenuine(l.entries, r);
      hide Push, After, Upto, SubGenuine, Genuine;
      OneSub(h, x, Push(s, Reset).0);
      OneSub(h, x, r);
    }
  }

  lemma ReplayPushGenuine(h: State, x: nat)
    requires Genuine(h)
    ensures Genuine(DoReplayPush(h, x))
  {
    if x < |h.subs| && h.subs[x].replay != [] {
      var s := h.subs[x];
      var l, r, e := LogOf(h, s.tenant), s.(replay := s.replay[1..]), s.replay[0];
      assert SubGenuine(l.entries, s) && e in s.replay;
      assert SubGenuine(l.entries, r);
      PushSameStart(r, EventOf(e));
      if Targets(e.to, s.user) { PushMine(l.entries, r, e); }
      hide Push, SubGenuine, Genuine;
      OneSub(h, x, r);
      if Targets(e.to, s.user) { OneSub(h, x, Push(r, EventOf(e)).0); }
    }
  }

  lemma ReadGenuine(h: State, k: nat, count: nat)
    requires Genuine(h)
    ensures Genuine(DoRead(h, k, count))
  {
    var n := DoRead(h, k, count);
    if n != h {
      var g := h.groups[k];
      StepLater(h, Read(k, count));
      ReadAreEntries(LogOf(h, g.tenant), g.last, count);
      assert GroupGenuine(n, n.groups[k]);
      hide DoRead, SubGenuine, GroupGenuine, Later;
      GenuineStep(h, n);
    }
  }

  lemma DispatchGenuine(h: State, k: nat, order: seq<nat>)
    requires Books(h) && Genuine(h)
    ensures Genuine(DoDispatch(h, k, order))
  {
    var n := DoDispatch(h, k, order);
    if n != h {
      var g := h.groups[k];
      StepLater(h, Dispatch(k, order));
      assert GroupGenuine(h, g) && g.batch[0] in g.batch;
      forall x <- order ensures Addressed(n, n.groups[k], x) { assert x in g.conns && Member(h, k, x); }
      assert GroupGenuine(n, n.groups[k]) by {
        forall e <- n.groups[k].batch ensures e in LogOf(h, g.tenant).entries { assert e in g.batch; }
      }
      hide DoDispatch, SubGenuine, GroupGenuine, Later, Books;
      GenuineStep(h, n);
    }
  }

  lemma PushNextGenuine(h: State, k: nat)
    requires Genuine(h)
    ensures Genuine(DoPushNext(h, k))
  {
    var n := DoPushNext(h, k);
    if n != h {
      var g := h.groups[k];
      var x := g.todo[0];
      assert GroupGenuine(h, g) && x in g.todo && Addressed(h, g, x);
      PushNextLater(h, k);
      PushMine(LogOf(h, g.tenant).entries, h.subs[x], g.entry.value);
      StallMine(LogOf(h, g.tenant).entries, Push(h.subs[x], EventOf(g.entry.value)).0, g);
      PushSameStart(h.subs[x], EventOf(g.entry.value));
      assert SameFeed(g, n.groups[k]);
      hide Push, SubGenuine, GroupGenuine, Later, SameFeed;
      assert forall j | 0 <= j < |h.groups| :: j != k ==> n.groups[j] == h.groups[j];
      forall j | 0 <= j < |n.groups| ensures SameFeed(h.groups[j], n.groups[j]) { FeedItself(h.groups[j]); }
      GenuineStep(h, n);
    }
  }

  lemma FeedItself(g: Group)
    ensures SameFeed(g, g)
  {
  }

  lemma CloseGenuine(h: State, x: nat, k: nat)
    requires Genuine(h)
    ensures Genuine(DoClose(h, x)) && Genuine(DoCloseStalled(h, k))
  {
    CloseIsGenuine(h, x);
    if k < |h.groups| && h.groups[k].closing.Some? {
      var y := h.groups[k].closing.value;
      CloseIsGenuine(h, y);
      CloseShape(h, y);
      hide DoClose;
      var m, n := DoClose(h, y), DoCloseStalled(h, k);
      forall j | 0 <= j < |n.groups| ensures GroupGenuine(n, n.groups[j]) {
        assert GroupGenuine(m, m.groups[j]);
        SameHub(m, n, m.groups[j]);
      }
    }
  }

  lemma CloseIsGenuine(h: State, x: nat)
    requires Genuine(h)
    ensures Genuine(DoClose(h, x))
  {
    CloseShape(h, x);
    CloseLater(h, x);
    hide DoClose;
    var n := DoClose(h, x);
    forall k | 0 <= k < |n.groups| ensures SameFeed(h.groups[k], n.groups[k]) {
      assert SameReader(h.groups[k], n.groups[k]);
    }
    forall y | 0 <= y < |n.subs| ensures SameInbox(h.subs[y], n.subs[y]) {
      assert n.subs[y] == h.subs[y] || n.subs[y] == Shut(h, y);
    }
    GenuineStep(h, n);
  }

  lemma JoinedGenuine(h: State, t: string)
    requires Genuine(h)
    ensures Genuine(Joined(h, t))
  {
    var n := Joined(h, t);
    if t !in h.tenants {
      forall k | 0 <= k < |n.groups| ensures GroupGenuine(n, n.groups[k]) {
        if k < |h.groups| { assert GroupGenuine(h, h.groups[k]); SameHub(h, n, h.groups[k]); }
      }
    }
  }

  lemma SameHub(h: State, n: State, g: Group)
    requires GroupGenuine(h, g) && n.subs == h.subs && n.logs == h.logs
    ensures GroupGenuine(n, g)
  {
    forall x <- g.todo ensures Addressed(n, g, x) { assert Addressed(h, g, x); }
  }

  lemma SeatGenuine(h: State, t: string, u: string, live: bool, k: nat)
    requires Genuine(h) && k < |h.groups|
    ensures Genuine(Seat(h, t, u, live, k))
  {
    var n := Seat(h, t, u, live, k);
    assert Later(h, n);
    assert forall j | 0 <= j < |n.groups| :: SameFeed(h.groups[j], n.groups[j]);
    assert forall x | 0 <= x < |h.subs| :: n.subs[x] == h.subs[x];
    assert SubGenuine(LogOf(n, t).entries, n.subs[|h.subs|]);
    hide Seat, Later, SameFeed, SubGenuine, GroupGenuine;
    GenuineStep(h, n);
  }

  lemma SubscribeGenuine(h: State, t: string, u: string, live: bool, up: bool)
    requires Genuine(h)
    ensures Genuine(DoSubscribe(h, t, u, live, up))
  {
    if !h.cancelled && (t in h.tenants || up) {
      JoinedGenuine(h, t);
      var n := Joined(h, t);
      hide Genuine, Seat, Full;
      if n.tenants[t] < |n.groups| { SeatGenuine(n, t, u, live, n.tenants[t]); }
    }
  }

  lemma RestGenuine(h: State, step: Step)
    requires Genuine(h) && (step.Publish? || step.Trim? || step.Take? || step.Cancel? || step.Snapshot?)
    ensures Genuine(Next(h, step))
  {
    var n := Next(h, step);
    StepLater(h, step);
    hide Less;
    assert n.groups == h.groups && |n.subs| == |h.subs|;
    assert forall x | 0 <= x < |h.subs| :: SameInbox(h.subs[x], n.subs[x]);
    hide Next, Later;
    forall k | 0 <= k < |n.groups| ensures SameFeed(h.groups[k], n.groups[k]) {}
    GenuineStep(h, n);
  }

  // ---- every run

  lemma StepGenuine(h: State, step: Step)
    requires Books(h) && Genuine(h)
    ensures Genuine(Next(h, step))
  {
    hide Genuine, Books, DoSubscribe, DoReplayReset, DoReplayRead, DoReplayPush, DoRead, DoDispatch, DoPushNext;
    hide DoCloseStalled, DoClose;
    match step
    case Subscribe(t, u, live, up) => SubscribeGenuine(h, t, u, live, up);
    case ReplayReset(x) => ReplayGenuine(h, x, ZERO, 0);
    case ReplayRead(x, id, n) => ReplayGenuine(h, x, id, n);
    case ReplayPush(x) => ReplayPushGenuine(h, x);
    case Read(k, n) => ReadGenuine(h, k, n);
    case Dispatch(k, order) => DispatchGenuine(h, k, order);
    case PushNext(k) => PushNextGenuine(h, k);
    case CloseStalled(k) => CloseGenuine(h, 0, k);
    case Close(x) => CloseGenuine(h, x, 0);
    case _ => hide Next; RestGenuine(h, step);
  }

  lemma {:induction false} AlwaysGenuine(perUser: int, perTenant: int, steps: seq<Step>)
    ensures Genuine(Run(NewHub(perUser, perTenant), steps))
  {
    if steps != [] {
      AlwaysGenuine(perUser, perTenant, steps[..|steps| - 1]);
      BooksAlways(perUser, perTenant, steps[..|steps| - 1]);
      hide Next, Genuine, Books;
      StepGenuine(Run(NewHub(perUser, perTenant), steps[..|steps| - 1]), steps[|steps| - 1]);
    }
  }

  /** Whatever happens, an event sent to a connection is an entry of its tenant's stream addressed to its user. */
  lemma NothingForeign(perUser: int, perTenant: int, steps: seq<Step>, x: nat, i: nat)
    ensures var h := Run(NewHub(perUser, perTenant), steps);
      x < |h.subs| && i < |h.subs[x].sent| && h.subs[x].sent[i].Live? ==>
        Mine(LogOf(h, h.subs[x].tenant).entries, h.subs[x].user, h.subs[x].sent[i])
  {
    AlwaysGenuine(perUser, perTenant, steps);
    var h := Run(NewHub(perUser, perTenant), steps);
    hide Run;
    if x < |h.subs| && i < |h.subs[x].sent| {
      assert SubGenuine(LogOf(h, h.subs[x].tenant).entries, h.subs[x]) && h.subs[x].sent[i] in h.subs[x].sent;
    }
  }
}
