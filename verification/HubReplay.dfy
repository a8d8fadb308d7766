/** Replay: a connection opened with the id it last saw is sent the entries it missed that
    are still in the stream, or a reset. */
module HubReplay {
  import opened Optional
  import opened Hub
  import opened HubComplete
  import HubDelivery

  // ---- what was missed, over the stream

  /** The first position, from one on, whose entry is above an id. */
  function Past(es: seq<Entry>, from: nat, id: Id): (p: nat)
    requires from <= |es|
    ensures from <= p <= |es| && (p < |es| ==> Less(id, es[p].id))
    ensures forall i | from <= i < p :: !Less(id, es[i].id)
    decreases |es| - from
  {
    if from == |es| || Less(id, es[from].id) then from else Past(es, from + 1, id)
  }

  function Max(a: nat, b: nat): nat { if a < b then b else a }

  function Min(a: nat, b: nat): nat { if a < b then a else b }

  /** Where the retained entries after an id begin, and where the first n of them end. */
  function Begins(l: Log, id: Id): (p: nat)
    requires Cut(l)
    ensures l.dropped <= p <= |l.entries|
  {
    Past(l.entries, l.dropped, id)
  }

  function Ends(l: Log, id: Id, n: nat): (q: nat)
    requires Cut(l)
    ensures Begins(l, id) <= q <= |l.entries|
  {
    Min(Begins(l, id) + n, |l.entries|)
  }

  /** Where the entries begin that are above all a connection was sent. */
  function Unseen(l: Log, s: Sub): nat { if s.last.Some? then Past(l.entries, 0, s.last.value) else 0 }

  /** The first n entries retained after an id, as far as they are meant for the connection's
      user and above what it was sent. */
  ghost function Missed(l: Log, s: Sub, id: Id, n: nat): seq<Event>
    requires Cut(l)
  {
    Targeted(l.entries, Max(Begins(l, id), Unseen(l, s)), Ends(l, id, n), s.user)
  }

  predicate Buffered(s: Sub) { s.taken <= |s.sent| <= s.taken + BUFFER }

  function Room(s: Sub): nat
    requires Buffered(s)
  {
    BUFFER - (|s.sent| - s.taken)
  }

  // ---- reading

  lemma RisesOn(es: seq<Entry>, p: nat, id: Id, i: nat)
    requires Rising(es) && p <= i < |es| && Less(id, es[p].id)
    ensures Less(id, es[i].id)
  {
    if p < i { assert Less(es[p].id, es[i].id); }
  }

  lemma ReadIsStretch(l: Log, id: Id, n: nat)
    requires LogOk(l)
    ensures Upto(After(l, id), n) == l.entries[Begins(l, id)..Ends(l, id, n)]
  {
    var p := Begins(l, id);
    forall j | p <= j < |l.entries| ensures Less(id, l.entries[j].id) { RisesOn(l.entries, p, id, j); }
    AfterSkips(l.entries, l.dropped, p, id);
    AfterAll(l.entries, p, id);
  }

  // ---- pushing

  /** After the entries up to a position: what is left to push, and what was sent, as far as there was room. */
  ghost predicate Replayed(l: Log, s: Sub, r: Sub, from: nat, i: nat, q: nat)
    requires Buffered(s)
  {
    && i <= q <= |l.entries| && r == s.(last := r.last, sent := r.sent, replay := l.entries[i..q])
    && r.sent == s.sent + Upto(Targeted(l.entries, from, i, s.user), Room(s))
    && (i <= from ==> r.last == s.last)
    && (r.last != s.last ==> 0 < i && r.last.Some? && !Less(l.entries[i - 1].id, r.last.value))
  }

  lemma UptoMore<T>(s: seq<T>, x: T, n: nat)
    ensures Upto(s + [x], n) == if |s| < n then Upto(s, n) + [x] else Upto(s, n)
  {
  }

  /** The next entry is passed over when it is not meant for the user or not above what was sent. */
  lemma PassesOver(l: Log, s: Sub, r: Sub, from: nat, i: nat, q: nat)
    requires Buffered(s) && Replayed(l, s, r, from, i, q) && i < q && LogOk(l)
    requires i < from || !Targets(l.entries[i].to, s.user)
    ensures Replayed(l, s, r.(replay := r.replay[1..]), from, i + 1, q)
  {
    assert l.entries[i..q][1..] == l.entries[i + 1..q];
    assert Targeted(l.entries, from, i + 1, s.user) == Targeted(l.entries, from, i, s.user);
    if i > 0 { assert Less(l.entries[i - 1].id, l.entries[i].id); }
  }

  lemma Sends(l: Log, s: Sub, r: Sub, from: nat, i: nat, q: nat)
    requires Buffered(s) && Replayed(l, s, r, from, i, q) && i < q && LogOk(l)
    requires from <= i && Targets(l.entries[i].to, s.user) && !s.closed
    requires r.last.Some? ==> Less(r.last.value, l.entries[i].id)
    ensures Replayed(l, s, Push(r.(replay := r.replay[1..]), EventOf(l.entries[i])).0, from, i + 1, q)
  {
    assert l.entries[i..q][1..] == l.entries[i + 1..q];
    var sent := Targeted(l.entries, from, i, s.user);
    assert Targeted(l.entries, from, i + 1, s.user) == sent + [EventOf(l.entries[i])];
    UptoMore(sent, EventOf(l.entries[i]), Room(s));
  }

  lemma ReplayOne(l: Log, s: Sub, r: Sub, p: nat, i: nat, q: nat)
    requires Buffered(s) && !s.closed && LogOk(l) && p <= i < q <= |l.entries|
    requires Replayed(l, s, r, Max(p, Unseen(l, s)), i, q)
    ensures var t, e := r.(replay := r.replay[1..]), l.entries[i];
      Replayed(l, s, if Targets(e.to, s.user) then Push(t, EventOf(e)).0 else t, Max(p, Unseen(l, s)), i + 1, q)
  {
    var from, e := Max(p, Unseen(l, s)), l.entries[i];
    if !Targets(e.to, s.user) {
      PassesOver(l, s, r, from, i, q);
    } else if i < from {
      PassesOver(l, s, r, from, i, q);
      assert s.last.Some? && !Less(s.last.value, e.id);
    } else {
      if r.last != s.last {
        assert i > 0 ==> Less(l.entries[i - 1].id, e.id);
      } else if s.last.Some? {
        RisesOn(l.entries, Unseen(l, s), s.last.value, i);
      }
      Sends(l, s, r, from, i, q);
    }
  }

  /** Nothing but one connection changes. */
  predicate OnlySub(h: State, n: State, x: nat) { x < |h.subs| == |n.subs| && n == h.(subs := h.subs[x := n.subs[x]]) }

  lemma OnlySubAgain(h: State, m: State, n: State, x: nat)
    requires OnlySub(h, m, x) && OnlySub(m, n, x)
    ensures OnlySub(h, n, x)
  {
  }

  function Pushes(x: nat, k: nat): seq<Step> { seq(k, _ => ReplayPush(x)) }

  lemma PushesMore(h: State, x: nat, k: nat)
    ensures Run(h, Pushes(x, k + 1)) == DoReplayPush(Run(h, Pushes(x, k)), x)
  {
    assert Pushes(x, k + 1)[..k] == Pushes(x, k) && Pushes(x, k + 1)[k] == ReplayPush(x);
    hide DoReplayPush;
  }

  /** The entry at the head of the list is taken off it, and pushed if it is meant for the user. */
  lemma PushStep(m: State, x: nat, e: Entry)
    requires x < |m.subs| && !m.subs[x].live && m.subs[x].replay != [] && m.subs[x].replay[0] == e
    ensures var t, n := m.subs[x].(replay := m.subs[x].replay[1..]), DoReplayPush(m, x);
      OnlySub(m, n, x) && n.subs[x] == if Targets(e.to, t.user) then Push(t, EventOf(e)).0 else t
  {
    hide Push;
  }

  lemma NextEntry(l: Log, s: Sub, r: Sub, from: nat, i: nat, q: nat)
    requires Buffered(s) && Replayed(l, s, r, from, i, q) && i < q
    ensures r.live == s.live && r.user == s.user && r.replay != [] && r.replay[0] == l.entries[i]
  {
    hide Targeted, Upto;
  }

  lemma {:induction false} PushesReplay(h: State, x: nat, s: Sub, p: nat, q: nat, k: nat)
    requires x < |h.subs| && !s.live && Buffered(s) && !s.closed && LogOk(LogOf(h, s.tenant))
    requires p <= q <= |LogOf(h, s.tenant).entries| && k <= q - p
    requires h.subs[x] == s.(replay := LogOf(h, s.tenant).entries[p..q])
    ensures var n, l := Run(h, Pushes(x, k)), LogOf(h, s.tenant);
      OnlySub(h, n, x) && Replayed(l, s, n.subs[x], Max(p, Unseen(l, s)), p + k, q)
  {
    var l := LogOf(h, s.tenant);
    var from := Max(p, Unseen(l, s));
    if k == 0 {
      assert Targeted(l.entries, from, p, s.user) == [];
    } else {
      hide Run, LogOk, LogOf, DoReplayPush, Push, Replayed, OnlySub, Buffered, Unseen;
      PushesReplay(h, x, s, p, q, k - 1);
      PushesMore(h, x, k - 1);
      var m := Run(h, Pushes(x, k - 1));
      SubThere(h, m, x);
      NextEntry(l, s, m.subs[x], from, p + k - 1, q);
      PushStep(m, x, l.entries[p + k - 1]);
      ReplayOne(l, s, m.subs[x], p, p + k - 1, q);
      OnlySubAgain(h, m, Run(h, Pushes(x, k)), x);
    }
  }

  lemma SubThere(h: State, n: State, x: nat)
    requires OnlySub(h, n, x)
    ensures x < |n.subs|
  {
  }

  // ---- the promise

  /** The steps of a replay by itself: the read, and a push for each entry read. */
  ghost function ReplaySteps(l: Log, x: nat, id: Id, n: nat): seq<Step>
    requires Cut(l)
  {
    [ReplayRead(x, id, n)] + Pushes(x, Ends(l, id, n) - Begins(l, id))
  }

  lemma AllReplayed(l: Log, s: Sub, r: Sub, from: nat, q: nat)
    requires Buffered(s) && Replayed(l, s, r, from, q, q)
    ensures r == s.(last := r.last, sent := s.sent + Upto(Targeted(l.entries, from, q, s.user), Room(s)), replay := [])
  {
    assert l.entries[q..q] == [];
    hide Targeted, Upto;
  }

  lemma Reads(h: State, x: nat, id: Id, n: nat)
    requires x < |h.subs| && !h.subs[x].live && LogOk(LogOf(h, h.subs[x].tenant))
    ensures var s, l, m := h.subs[x], LogOf(h, h.subs[x].tenant), Next(h, ReplayRead(x, id, n));
      && OnlySub(h, m, x) && LogOf(m, s.tenant) == l
      && m.subs[x] == s.(replay := l.entries[Begins(l, id)..Ends(l, id, n)])
  {
    ReadIsStretch(LogOf(h, h.subs[x].tenant), id, n);
    hide After, Upto, LogOk, Begins, Ends;
  }

  lemma ReplaysIn(h: State, x: nat, id: Id, n: nat)
    requires x < |h.subs| && !h.subs[x].live && !h.subs[x].closed && Buffered(h.subs[x])
    requires LogOk(LogOf(h, h.subs[x].tenant))
    ensures var s, l := h.subs[x], LogOf(h, h.subs[x].tenant);
      var m := Run(h, ReplaySteps(l, x, id, n));
      && OnlySub(h, m, x)
      && m.subs[x] == s.(last := m.subs[x].last, sent := s.sent + Upto(Missed(l, s, id, n), Room(s)), replay := [])
  {
    var s, l := h.subs[x], LogOf(h, h.subs[x].tenant);
    var p, q := Begins(l, id), Ends(l, id, n);
    var m, r := Next(h, ReplayRead(x, id, n)), Run(Next(h, ReplayRead(x, id, n)), Pushes(x, q - p));
    hide Run, Next, LogOf, Targeted, Upto, Buffered, Replayed, OnlySub, Begins, Ends, Unseen, Rising;
    Reads(h, x, id, n);
    SubThere(h, m, x);
    RunFirst(h, ReplayRead(x, id, n), Pushes(x, q - p));
    PushesReplay(m, x, s, p, q, q - p);
    SubThere(m, r, x);
    OnlySubAgain(h, m, r, x);
    AllReplayed(l, s, r.subs[x], Max(p, Unseen(l, s)), q);
  }

  lemma {:induction false} RunFirst(h: State, step: Step, rest: seq<Step>)
    ensures Run(h, [step] + rest) == Run(Next(h, step), rest)
  {
    hide Next;
    var all := [step] + rest;
    if rest == [] {
      assert all[..0] == [] && all[0] == step;
    } else {
      assert all[..|all| - 1] == [step] + rest[..|rest| - 1] && all[|all| - 1] == rest[|rest| - 1];
      RunFirst(h, step, rest[..|rest| - 1]);
    }
  }

  /** In any reachable state, for any open connection with a replay id whose stream has rising
      ids, whatever it was sent before: a replay by itself sends, in order, exactly those of the
      first n entries retained after the id that are meant for its user and above what it was
      sent, as many as there is room for; and changes nothing else. */
  lemma ReplaySends(perUser: int, perTenant: int, steps: seq<Step>, x: nat, id: Id, n: nat)
    ensures var h := Run(NewHub(perUser, perTenant), steps);
      x < |h.subs| && !h.subs[x].live && !h.subs[x].closed && Rising(LogOf(h, h.subs[x].tenant).entries) ==>
        var s, l := h.subs[x], LogOf(h, h.subs[x].tenant);
        && Buffered(s) && Cut(l)
        && var m := Run(h, ReplaySteps(l, x, id, n));
        && OnlySub(h, m, x)
        && m.subs[x] == s.(last := m.subs[x].last, sent := s.sent + Upto(Missed(l, s, id, n), Room(s)), replay := [])
  {
    var h := Run(NewHub(perUser, perTenant), steps);
    BaseAlways(perUser, perTenant, steps);
    HubDelivery.AlwaysInOrder(perUser, perTenant, steps);
    if x < |h.subs| {
      assert HubDelivery.InOrder(h.subs[x]) && Cut(LogOf(h, h.subs[x].tenant));
      hide Run, Rising;
      if !h.subs[x].live && !h.subs[x].closed && Rising(LogOf(h, h.subs[x].tenant).entries) {
        ReplaysIn(h, x, id, n);
      }
    }
  }

  /** An id beyond the window, one that cannot be read, or a store that does not answer: one
      reset is queued if there is room, and nothing else changes. */
  lemma ResetSends(h: State, x: nat)
    requires x < |h.subs| && !h.subs[x].live && !h.subs[x].closed && Buffered(h.subs[x])
    ensures var m := Next(h, ReplayReset(x));
      && OnlySub(h, m, x)
      && m.subs[x] == h.subs[x].(sent := h.subs[x].sent + if Room(h.subs[x]) > 0 then [Reset] else [])
  {
  }

  /** What a connection gets when it is opened with the text of an id: of what it missed, as much as
      there is room for; or, if the text is no id or one from before the window, or the store does
      not answer, a reset. */
  ghost predicate Answers(h: State, n: State, x: nat, id: Id, known: bool, count: nat)
    requires x < |h.subs|
  {
    var s, l := h.subs[x], LogOf(h, h.subs[x].tenant);
    x < |n.subs| && (!s.closed && Buffered(s) && LogOk(l) ==>
      n.subs[x].sent == s.sent + if known then Upto(Missed(l, s, id, count), Room(s))
                                 else if Room(s) > 0 then [Reset] else [])
  }

  lemma ResetAnswers(h: State, x: nat, id: Id, count: nat)
    requires x < |h.subs| && !h.subs[x].live
    ensures Answers(h, Next(h, ReplayReset(x)), x, id, false, count)
  {
  }

  lemma ReadAnswers(h: State, x: nat, id: Id, count: nat, k: nat)
    requires x < |h.subs| && !h.subs[x].live
    requires k == |Upto(After(LogOf(h, h.subs[x].tenant), id), count)|
    requires x < |Run(h, [ReplayRead(x, id, count)] + Pushes(x, k)).subs|
    ensures Answers(h, Run(h, [ReplayRead(x, id, count)] + Pushes(x, k)), x, id, true, count)
  {
    var s, l := h.subs[x], LogOf(h, h.subs[x].tenant);
    hide Run, LogOf, LogOk, Buffered, Missed, ReplaySteps, OnlySub, After, Upto;
    if !s.closed && Buffered(s) && LogOk(l) {
      ReadLength(l, x, id, count, k);
      ReplaysIn(h, x, id, count);
    }
  }

  lemma ReadLength(l: Log, x: nat, id: Id, count: nat, k: nat)
    requires LogOk(l) && k == |Upto(After(l, id), count)|
    ensures ReplaySteps(l, x, id, count) == [ReplayRead(x, id, count)] + Pushes(x, k)
  {
    ReadIsStretch(l, id, count);
    hide After, Upto, Rising;
  }
}
