/** What a connection receives, over every interleaving: never an id twice or out
    of order; and, opened without a replay id, every entry meant for it, with no
    gap, until the first one that does not fit. */
module HubDelivery {
  import opened Optional
  import opened Hub
  import opened HubBooks
  import HubComplete

  // ---- order, for every connection

  /** The ids of a list of events rise strictly. */
  ghost predicate Rises(evs: seq<Event>) {
    forall i, j | 0 <= i < j < |evs| && evs[i].Live? && evs[j].Live? :: Less(evs[i].id, evs[j].id)
  }

  /** The ids sent rise strictly, none is above the last, and at most a buffer of events waits. */
  ghost predicate InOrder(s: Sub) {
    && Rises(s.sent)
    && (forall i | 0 <= i < |s.sent| && s.sent[i].Live? :: s.last.Some? && !Less(s.last.value, s.sent[i].id))
    && s.taken <= |s.sent| <= s.taken + BUFFER
  }

  lemma PushKeepsOrder(s: Sub, ev: Event)
    requires InOrder(s)
    ensures InOrder(Push(s, ev).0)
  {
  }

  ghost predicate AllInOrder(h: State) { forall x | 0 <= x < |h.subs| :: InOrder(h.subs[x]) }

  predicate SameMail(s: Sub, r: Sub) { s.sent == r.sent && s.last == r.last && s.taken == r.taken }

  lemma CloseKeepsMail(h: State, x: nat)
    ensures var n := DoClose(h, x);
      |n.subs| == |h.subs| && forall y | 0 <= y < |h.subs| :: SameMail(h.subs[y], n.subs[y])
  {
    hide Leave;
  }

  lemma OrderStep(h: State, step: Step)
    requires AllInOrder(h)
    ensures AllInOrder(Next(h, step))
  {
    hide DoClose, Enter, After, Push, IsFanOut, InOrder;
    match step
    case Close(x) => CloseKeepsMail(h, x); MailKeepsOrder(h, DoClose(h, x));
    case CloseStalled(k) =>
      if k < |h.groups| && h.groups[k].closing.Some? {
        var x := h.groups[k].closing.value;
        CloseKeepsMail(h, x);
        MailKeepsOrder(h, DoClose(h, x));
      }
    case ReplayReset(x) => if x < |h.subs| { PushKeepsOrder(h.subs[x], Reset); }
    case ReplayRead(x, id, n) => if x < |h.subs| { SameMailOrder(h.subs[x], Next(h, step).subs[x]); }
    case ReplayPush(x) => ReplayPushOrder(h, x);
    case PushNext(k) => PushNextOrder(h, k);
    case Take(x) => TakeOrder(h, x);
    case Subscribe(t, u, live, up) => SubscribeOrder(h, t, u, live, up);
    case _ =>
  }

  lemma SameMailOrder(s: Sub, r: Sub)
    requires InOrder(s) && SameMail(s, r)
    ensures InOrder(r)
  {
  }

  lemma MailKeepsOrder(h: State, n: State)
    requires AllInOrder(h) && |n.subs| == |h.subs| && forall y | 0 <= y < |h.subs| :: SameMail(h.subs[y], n.subs[y])
    ensures AllInOrder(n)
  {
    forall y | 0 <= y < |n.subs| ensures InOrder(n.subs[y]) {
      assert SameMail(h.subs[y], n.subs[y]);
      SameMailOrder(h.subs[y], n.subs[y]);
    }
  }

  lemma ReplayPushOrder(h: State, x: nat)
    requires AllInOrder(h)
    ensures AllInOrder(DoReplayPush(h, x))
  {
    if x < |h.subs| && h.subs[x].replay != [] {
      var s := h.subs[x];
      var r := s.(replay := s.replay[1..]);
      SameMailOrder(s, r);
      hide InOrder, Push;
      PushKeepsOrder(r, EventOf(s.replay[0]));
    }
  }

  lemma PushNextOrder(h: State, k: nat)
    requires AllInOrder(h)
    ensures AllInOrder(DoPushNext(h, k))
  {
    if k < |h.groups| && h.groups[k].todo != [] && h.groups[k].entry.Some? && h.groups[k].todo[0] < |h.subs| {
      var s := h.subs[h.groups[k].todo[0]];
      var ev := EventOf(h.groups[k].entry.value);
      hide InOrder, Push;
      PushKeepsOrder(s, ev);
      SameMailOrder(Push(s, ev).0, Stall(Push(s, ev).0, h.groups[k]));
    }
  }

  lemma TakeOrder(h: State, x: nat)
    requires AllInOrder(h)
    ensures AllInOrder(DoTake(h, x))
  {
    if x < |h.subs| { assert InOrder(h.subs[x]) && InOrder(DoTake(h, x).subs[x]); }
  }

  lemma SubscribeOrder(h: State, t: string, u: string, live: bool, up: bool)
    requires AllInOrder(h)
    ensures AllInOrder(DoSubscribe(h, t, u, live, up))
  {
    var n := DoSubscribe(h, t, u, live, up);
    assert |n.subs| > |h.subs| ==> InOrder(n.subs[|h.subs|]);
  }

  /** Whatever happens, in whatever order: every connection, with or without a replay,
      is sent strictly rising ids, and never more than its buffer holds waits. */
  lemma {:induction false} AlwaysInOrder(perUser: int, perTenant: int, steps: seq<Step>)
    ensures AllInOrder(Run(NewHub(perUser, perTenant), steps))
  {
    if steps != [] {
      AlwaysInOrder(perUser, perTenant, steps[..|steps| - 1]);
      hide Next, AllInOrder;
      OrderStep(Run(NewHub(perUser, perTenant), steps[..|steps| - 1]), steps[|steps| - 1]);
    }
  }

  // ---- without a gap only in order

  lemma {:induction false} TargetedHas(es: seq<Entry>, from: nat, to: nat, u: string, i: nat)
    requires from <= i < to <= |es| && Targets(es[i].to, u)
    ensures EventOf(es[i]) in HubComplete.Targeted(es, from, to, u)
  {
    if i < to - 1 { TargetedHas(es, from, to - 1, u, i); }
  }

  lemma {:induction false} TargetedRises(es: seq<Entry>, from: nat, to: nat, u: string, i: nat, j: nat)
    requires to <= |es| && Rises(HubComplete.Targeted(es, from, to, u))
    requires from <= i < j < to && Targets(es[i].to, u) && Targets(es[j].to, u)
    ensures Less(es[i].id, es[j].id)
  {
    var front, evs := HubComplete.Targeted(es, from, to - 1, u), HubComplete.Targeted(es, from, to, u);
    if j == to - 1 {
      TargetedHas(es, from, j, u, i);
      var k :| 0 <= k < |front| && front[k] == EventOf(es[i]);
      assert evs[k] == front[k] && evs[|front|] == EventOf(es[j]);
    } else {
      assert front == evs[..|front|];
      TargetedRises(es, from, to - 1, u, i, j);
    }
  }

  /** No connection, in any run, is sent all that is meant for it from one position to another
      unless those ids rise: an entry below one that was sent before it is passed over. */
  lemma OnlyInOrder(perUser: int, perTenant: int, steps: seq<Step>, x: nat, b: HubComplete.Start, q: nat)
    ensures var h := Run(NewHub(perUser, perTenant), steps);
      x < |h.subs| ==>
        var s, es := h.subs[x], LogOf(h, h.subs[x].tenant).entries;
        HubComplete.SentFrom(es, s, b, q) ==>
          forall i, j | b.at <= i < j < q && Targets(es[i].to, s.user) && Targets(es[j].to, s.user) ::
            Less(es[i].id, es[j].id)
  {
    AlwaysInOrder(perUser, perTenant, steps);
    var h := Run(NewHub(perUser, perTenant), steps);
    hide Run, Less;
    if x < |h.subs| && HubComplete.SentFrom(LogOf(h, h.subs[x].tenant).entries, h.subs[x], b, q) {
      var s, es := h.subs[x], LogOf(h, h.subs[x].tenant).entries;
      assert InOrder(s);
      assert Rises(s.sent) && Rises(HubComplete.Targeted(es, b.at, q, s.user));
      forall i, j | b.at <= i < j < q && Targets(es[i].to, s.user) && Targets(es[j].to, s.user)
        ensures Less(es[i].id, es[j].id)
      {
        TargetedRises(es, b.at, q, s.user, i, j);
      }
    }
  }

  // ---- a superseded reader

  predicate OfGroup(subs: seq<Sub>, k: nat, x: nat) { x < |subs| && subs[x].group == k }

  /** A reader pushes to connections of its own group, and closes only those. */
  ghost predicate Own(subs: seq<Sub>, g: Group, k: nat) {
    && (forall x | x in g.todo :: OfGroup(subs, k, x))
    && (g.closing.Some? ==> OfGroup(subs, k, g.closing.value))
  }

  ghost predicate AllOwn(h: State) { forall k | 0 <= k < |h.groups| :: Own(h.subs, h.groups[k], k) }

  /** A step of another kind than dispatch adds nothing to what a reader has yet to push or close. */
  ghost predicate Narrows(g: Group, f: Group) {
    && (forall x | x in f.todo :: x in g.todo)
    && (f.closing.Some? ==> f.closing == g.closing || f.closing.value in g.todo)
  }

  ghost predicate AllNarrow(h: State, n: State) {
    && |h.groups| <= |n.groups|
    && (forall k | 0 <= k < |h.groups| :: Narrows(h.groups[k], n.groups[k]))
    && (forall k | |h.groups| <= k < |n.groups| :: n.groups[k].todo == [] && n.groups[k].closing.None?)
  }

  lemma SubscribeNarrows(h: State, t: string, u: string, live: bool, up: bool)
    ensures AllNarrow(h, DoSubscribe(h, t, u, live, up))
  {
    hide LogOf, Full;
  }

  lemma CloseNarrows(h: State, x: nat, k: nat)
    ensures AllNarrow(h, DoClose(h, x)) && AllNarrow(h, DoCloseStalled(h, k))
  {
    HubComplete.CloseShape(h, x);
    assert forall j | 0 <= j < |h.groups| :: HubComplete.SameReader(h.groups[j], DoClose(h, x).groups[j]);
    if k < |h.groups| && h.groups[k].closing.Some? {
      var y := h.groups[k].closing.value;
      HubComplete.CloseShape(h, y);
      hide DoClose;
      assert forall j | 0 <= j < |h.groups| :: HubComplete.SameReader(h.groups[j], DoClose(h, y).groups[j]);
    }
  }

  lemma StepNarrows(h: State, step: Step)
    requires !step.Dispatch?
    ensures AllNarrow(h, Next(h, step))
  {
    hide DoSubscribe, DoClose, DoCloseStalled, Push, After, Upto;
    match step
    case Subscribe(t, u, live, up) => SubscribeNarrows(h, t, u, live, up);
    case Close(x) => CloseNarrows(h, x, 0);
    case CloseStalled(k) => CloseNarrows(h, 0, k);
    case _ =>
  }

  lemma OwnStep(h: State, step: Step)
    requires Books(h) && AllOwn(h)
    ensures AllOwn(Next(h, step))
  {
    HubComplete.StepLater(h, step);
    var n := Next(h, step);
    forall x | 0 <= x < |h.subs| ensures n.subs[x].group == h.subs[x].group {
      assert HubComplete.SameStart(h.subs[x], n.subs[x]);
    }
    if step.Dispatch? {
      DispatchOwn(h, step.group, step.order);
    } else {
      StepNarrows(h, step);
      hide Next, Books;
      forall k | 0 <= k < |n.groups| ensures Own(n.subs, n.groups[k], k) {
        if k < |h.groups| {
          assert Narrows(h.groups[k], n.groups[k]) && Own(h.subs, h.groups[k], k);
          forall x | x in n.groups[k].todo ensures OfGroup(n.subs, k, x) { assert OfGroup(h.subs, k, x); }
        }
      }
    }
  }

  lemma DispatchOwn(h: State, k: nat, order: seq<nat>)
    requires Books(h) && AllOwn(h)
    ensures AllOwn(DoDispatch(h, k, order))
  {
    var n := DoDispatch(h, k, order);
    if n != h {
      forall x | x in order ensures OfGroup(h.subs, k, x) { assert Member(h, k, x); }
      hide Books, DoDispatch;
      forall j | 0 <= j < |n.groups| ensures Own(n.subs, n.groups[j], j) { assert Own(h.subs, h.groups[j], j); }
    }
  }

  lemma {:induction false} OwnAlways(perUser: int, perTenant: int, steps: seq<Step>)
    ensures AllOwn(Run(NewHub(perUser, perTenant), steps))
  {
    if steps != [] {
      OwnAlways(perUser, perTenant, steps[..|steps| - 1]);
      BooksAlways(perUser, perTenant, steps[..|steps| - 1]);
      hide Next, AllOwn, Books;
      OwnStep(Run(NewHub(perUser, perTenant), steps[..|steps| - 1]), steps[|steps| - 1]);
    }
  }

  predicate OfReader(step: Step, k: nat) {
    match step
    case Read(j, _) => j == k
    case Dispatch(j, _) => j == k
    case PushNext(j) => j == k
    case CloseStalled(j) => j == k
    case _ => false
  }

  /** Once its group is no longer the tenant's current one, whatever a reader still does
      changes no connection: it delivers to nobody and closes nobody. */
  lemma SupersededIsSilent(perUser: int, perTenant: int, steps: seq<Step>, k: nat, step: Step)
    requires OfReader(step, k)
    ensures var h := Run(NewHub(perUser, perTenant), steps);
      k < |h.groups| && !Current(h, k) ==> Next(h, step).subs == h.subs
  {
    var h := Run(NewHub(perUser, perTenant), steps);
    OwnAlways(perUser, perTenant, steps);
    BooksAlways(perUser, perTenant, steps);
    if k < |h.groups| && !Current(h, k) {
      assert Own(h.subs, h.groups[k], k) && RunsOrRetired(h, k);
      forall x: nat | OfGroup(h.subs, k, x) ensures h.subs[x].closed { if !h.subs[x].closed { OpenSeat(h, x); } }
      hide Run, Books, IsFanOut;
    }
  }
}
