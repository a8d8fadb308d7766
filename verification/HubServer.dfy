/** The hub as the program keeps it: fields changed in place. What each operation does
    to them is a sequence of the machine's steps, so every run of the program is one of
    the runs the theorems speak of. */
module HubServer {
  import opened Optional
  import opened Hub
  import opened HubBooks
  import opened HubComplete
  import opened HubReplay
  import StreamIds

  class Server {
    const perUser: nat
    const perTenant: nat
    var cancelled: bool
    var tenants: map<string, nat>
    var groups: seq<Group>
    var subs: seq<Sub>
    var logs: map<string, Log>
    var doomed: Option<set<nat>>

    function View(): State
      reads this
    {
      State(perUser, perTenant, cancelled, tenants, groups, subs, logs, doomed)
    }

    constructor (perUser: int, perTenant: int)
      ensures View() == NewHub(perUser, perTenant)
    {
      this.perUser := if perUser <= 0 then 5 else perUser;
      this.perTenant := if perTenant <= 0 then 2000 else perTenant;
      cancelled, tenants, groups, subs, logs, doomed := false, map[], [], [], map[], None;
    }

    /** The group of a tenant, with a reader that starts at the tail of the stream when there is none yet. */
    method Join(t: string) returns (k: nat)
      requires Listed(View())
      modifies this
      ensures View() == Joined(old(View()), t) && t in tenants && tenants[t] == k < |groups|
    {
      if t !in tenants {
        var l := if t in logs then logs[t] else NO_LOG;
        var start := if l.dropped < |l.entries| then l.entries[|l.entries| - 1].id else ZERO;
        tenants := tenants[t := |groups|];
        groups := groups + [Group(t, {}, map[], false, start, |l.entries|, [], None, [], None)];
      }
      k := tenants[t];
    }

    /** None is the error: the hub is closed, there are too many streams, or the stream store does not answer. */
    method Subscribe(t: string, u: string, live: bool, up: bool) returns (r: Option<nat>)
      requires Listed(View())
      modifies this
      ensures View() == DoSubscribe(old(View()), t, u, live, up)
      ensures r == if |subs| > old(|subs|) then Some(old(|subs|)) else None
    {
      hide Listed;
      if cancelled || (t !in tenants && !up) {
        return None;
      }
      var k := Join(t);
      hide Joined;
      var g := groups[k];
      var n := if u in g.byUser then g.byUser[u] else 0;
      if n >= perUser || |g.conns| >= perTenant {
        return None;
      }
      r := Some(|subs|);
      groups := groups[k := g.(conns := g.conns + {|subs|}, byUser := g.byUser[u := n + 1])];
      subs := subs + [Sub(t, u, k, None, false, [], 0, [], live, None, None)];
    }

    /** Sends a connection what it missed after the id its client gives: a reset when that id
        cannot be read or lies before the window, or when the store does not answer. */
    method Replay(x: nat, lastId: string, window: int, count: nat, up: bool) returns (ghost steps: seq<Step>)
      requires x < |subs| && !subs[x].live
      modifies this
      ensures View() == Run(old(View()), steps)
      ensures var (id, ok) := StreamIds.ParseId(lastId);
        Answers(old(View()), View(), x, id, ok && id.ms >= window && up, count)
    {
      ghost var h := View();
      var (id, ok) := StreamIds.ParseId(lastId);
      if !ok || id.ms < window || !up {
        steps := [ReplayReset(x)];
        RunOne(h, ReplayReset(x));
        ResetAnswers(h, x, id, count);
        hide Push, Run, Answers;
        subs := subs[x := Push(subs[x], Reset).0];
        return;
      }
      var l := if subs[x].tenant in logs then logs[subs[x].tenant] else NO_LOG;
      var entries := Upto(After(l, id), count);
      RunOne(h, ReplayRead(x, id, count));
      hide After, Upto, Run, Answers;
      subs := subs[x := subs[x].(replay := entries)];
      assert View() == Next(h, ReplayRead(x, id, count));
      hide Next;
      ghost var more := PushReplay(x);
      RunFirst(h, ReplayRead(x, id, count), more);
      steps := [ReplayRead(x, id, count)] + more;
      ReadAnswers(h, x, id, count, |entries|);
    }

    /** Pushes the entries read for a replay, one by one, whether they fit or not. */
    method PushReplay(x: nat) returns (ghost steps: seq<Step>)
      requires x < |subs| && !subs[x].live
      modifies this
      ensures View() == Run(old(View()), steps) && steps == Pushes(x, |old(subs[x].replay)|) && x < |subs|
    {
      steps := [];
      while subs[x].replay != []
        invariant x < |subs| && !subs[x].live && View() == Run(old(View()), steps)
        invariant |steps| + |subs[x].replay| == |old(subs[x].replay)| && steps == Pushes(x, |steps|)
        decreases |subs[x].replay|
      {
        ghost var h := View();
        var e := subs[x].replay[0];
        var s := subs[x].(replay := subs[x].replay[1..]);
        if Targets(e.to, s.user) {
          var (r, _) := Push(s, EventOf(e));
          s := r;
        }
        subs := subs[x := s];
        assert View() == DoReplayPush(h, x);
        assert s.replay == h.subs[x].replay[1..] && !s.live;
        hide Run, Push, DoReplayPush;
        RunMore(old(View()), steps, ReplayPush(x));
        steps := steps + [ReplayPush(x)];
      }
    }

    method Close(x: nat)
      modifies this
      ensures View() == DoClose(old(View()), x)
    {
      if x < |subs| && !subs[x].closed {
        var s := subs[x];
        subs := subs[x := Shut(View(), x)];
        if s.tenant in tenants && tenants[s.tenant] < |groups| {
          var k := tenants[s.tenant];
          var g := groups[k];
          g := g.(conns := g.conns - {x});
          var n := if s.user in g.byUser then g.byUser[s.user] else 0;
          g := g.(byUser := if n <= 1 then g.byUser - {s.user} else g.byUser[s.user := n - 1]);
          if |g.conns| == 0 {
            g := g.(cancelled := true);
            tenants := tenants - {s.tenant};
          }
          groups := groups[k := g];
        }
      }
    }

    /** Closes the connection that stalled; the reader's own list is not touched by that. */
    method CloseMarked(k: nat)
      requires k < |groups| && groups[k].closing.Some?
      modifies this
      ensures View() == DoCloseStalled(old(View()), k)
      ensures k < |groups| && |subs| == old(|subs|)
      ensures groups[k].closing.None? && groups[k].todo == old(groups[k].todo)
      ensures groups[k].entry == old(groups[k].entry)
    {
      var x := groups[k].closing.value;
      CloseShape(View(), x);
      assert SameReader(groups[k], DoClose(View(), x).groups[k]);
      hide DoClose;
      Close(x);
      groups := groups[k := groups[k].(closing := None)];
    }

    /** Pushes the entry in hand to the next connection listed for it, and closes that one if it stalled. */
    method PushOne(k: nat) returns (ghost steps: seq<Step>)
      requires AllPresent(View(), k) && groups[k].todo != []
      modifies this
      ensures View() == Run(old(View()), steps) && AllPresent(View(), k) && groups[k].todo == old(groups[k].todo)[1..]
    {
      ghost var h := View();
      var g := groups[k];
      var x := g.todo[0];
      assert x in g.todo && forall y | y in g.todo[1..] :: y in g.todo;
      var (s, fits) := Push(subs[x], EventOf(g.entry.value));
      subs := subs[x := if fits then s else Stall(s, g)];
      groups := groups[k := g.(todo := g.todo[1..], closing := if fits then None else Some(x))];
      ghost var m := View();
      assert m == DoPushNext(h, k);
      hide Run, Push, DoPushNext, DoCloseStalled, Next;
      StepIs(h, k, x);
      RunOne(h, PushNext(k));
      steps := [PushNext(k)];
      if !fits {
        CloseMarked(k);
        StepIs(m, k, x);
        RunMore(h, steps, CloseStalled(k));
        steps := steps + [CloseStalled(k)];
      }
    }

    /** Pushes the entry in hand to each connection listed for it. */
    method FanOut(k: nat) returns (ghost steps: seq<Step>)
      requires AllPresent(View(), k)
      modifies this
      ensures View() == Run(old(View()), steps)
      ensures k < |groups| && groups[k].todo == [] && groups[k].closing.None?
    {
      steps := [];
      while groups[k].todo != []
        invariant AllPresent(View(), k)
        invariant View() == Run(old(View()), steps)
        decreases |groups[k].todo|
      {
        ghost var more := PushOne(k);
        RunOn(old(View()), steps, more);
        steps := steps + more;
      }
    }

    /** Cancels, lists the open connections and closes each of them: at the end none is open. */
    method Shutdown() returns (ghost steps: seq<Step>)
      requires Books(View())
      modifies this
      ensures View() == Run(old(View()), steps) && Books(View())
      ensures cancelled && tenants == map[] && forall x | 0 <= x < |subs| :: subs[x].closed
    {
      ghost var h := View();
      StepKeeps(h, Cancel);
      StepKeeps(Next(h, Cancel), Snapshot);
      RunOne(h, Cancel);
      RunMore(h, [Cancel], Snapshot);
      cancelled := true;
      var left := StillOpen(subs);
      doomed := Some(left);
      steps := [Cancel] + [Snapshot];
      assert View() == Next(Next(h, Cancel), Snapshot);
      hide Books, Run, Next;
      while left != {}
        invariant cancelled && View() == Run(h, steps) && Books(View())
        invariant forall x | 0 <= x < |subs| :: subs[x].closed || x in left
        decreases |left|
      {
        var x :| x in left;
        left := left - {x};
        StepKeeps(View(), Hub.Close(x));
        ClosedStays(View(), Hub.Close(x));
        StepIs(View(), 0, x);
        RunMore(h, steps, Hub.Close(x));
        steps := steps + [Hub.Close(x)];
        Close(x);
      }
      NoneOpen(View());
    }
  }

  /** Subscribe is refused exactly when the hub is closed, the user's open streams are at
      their limit or the tenant's are, or the stream store fails on a tenant's first. */
  lemma RefusedExactly(h: State, t: string, u: string, live: bool, up: bool)
    requires Books(h)
    ensures |DoSubscribe(h, t, u, live, up).subs| == |h.subs| <==>
            || h.cancelled || |OfUser(h.subs, Open(h, t), u)| == h.perUser || |Open(h, t)| == h.perTenant
            || (Open(h, t) == {} && !up)
  {
    JoinedBooks(h, t);
    OpenIsConns(h, t);
    UsesIsOpen(h, t, u);
    hide Books, OfUser, Open;
  }

  /** What the reader is about to push to is there. */
  ghost predicate AllPresent(h: State, k: nat) {
    && k < |h.groups| && h.groups[k].closing.None? && (h.groups[k].todo != [] ==> h.groups[k].entry.Some?)
    && forall x | x in h.groups[k].todo :: x < |h.subs|
  }

  lemma StepIs(h: State, k: nat, x: nat)
    ensures Next(h, PushNext(k)) == DoPushNext(h, k) && Next(h, CloseStalled(k)) == DoCloseStalled(h, k)
    ensures Next(h, Close(x)) == DoClose(h, x)
  {
    hide DoPushNext, DoCloseStalled, DoClose;
  }

  lemma RunOne(h: State, step: Step)
    ensures Run(h, [step]) == Next(h, step)
  {
    RunMore(h, [], step);
    assert [] + [step] == [step];
  }

  lemma RunMore(h: State, steps: seq<Step>, step: Step)
    ensures Run(h, steps + [step]) == Next(Run(h, steps), step)
  {
    assert (steps + [step])[..|steps + [step]| - 1] == steps;
    hide Next;
  }
}
