/** The hub's bookkeeping over every run: tenants, connection sets, counters,
    quotas, superseded readers and shutdown. */
module HubBooks {
  import opened Optional
  import opened Hub

  // ---- the invariant

  ghost predicate Current(h: State, k: nat)
    requires k < |h.groups|
  {
    h.groups[k].tenant in h.tenants && h.tenants[h.groups[k].tenant] == k
  }

  ghost predicate Listed(h: State) {
    forall t <- h.tenants :: h.tenants[t] < |h.groups| && h.groups[h.tenants[t]].tenant == t
  }

  /** A group is its tenant's current one and has connections, or it is stopped and has none. */
  ghost predicate RunsOrRetired(h: State, k: nat)
    requires k < |h.groups|
  {
    if Current(h, k) then h.groups[k].conns != {} && !h.groups[k].cancelled
    else h.groups[k].conns == {} && h.groups[k].byUser == map[] && h.groups[k].cancelled
  }

  ghost predicate Retired(h: State) { forall k | 0 <= k < |h.groups| :: RunsOrRetired(h, k) }

  ghost predicate Member(h: State, k: nat, x: nat)
    requires k < |h.groups|
  {
    x < |h.subs| && !h.subs[x].closed && h.subs[x].group == k && h.subs[x].tenant == h.groups[k].tenant
  }

  ghost predicate Members(h: State) {
    forall k, x | 0 <= k < |h.groups| && x in h.groups[k].conns :: Member(h, k, x)
  }

  ghost predicate Seated(h: State) {
    forall x | 0 <= x < |h.subs| :: !h.subs[x].closed ==>
      h.subs[x].group < |h.groups| && x in h.groups[h.subs[x].group].conns
  }

  /** The connections of a set that are a user's. */
  ghost function OfUser(subs: seq<Sub>, conns: set<nat>, u: string): set<nat> {
    set x | x in conns && x < |subs| && subs[x].user == u
  }

  ghost predicate Counted(subs: seq<Sub>, g: Group) {
    && (forall u :: Uses(g, u) == |OfUser(subs, g.conns, u)|)
    && (forall u <- g.byUser :: g.byUser[u] > 0)
  }

  ghost predicate Counts(h: State) { forall k | 0 <= k < |h.groups| :: Counted(h.subs, h.groups[k]) }

  ghost predicate Within(h: State, g: Group) {
    |g.conns| <= h.perTenant && forall u :: Uses(g, u) <= h.perUser
  }

  ghost predicate Quotas(h: State) {
    h.perUser > 0 && h.perTenant > 0 && forall k | 0 <= k < |h.groups| :: Within(h, h.groups[k])
  }

  /** Once Hub.Close took its list, only the connections on it can be open. */
  ghost predicate Doomed(h: State) {
    h.doomed.Some? ==> h.cancelled && forall x | 0 <= x < |h.subs| :: h.subs[x].closed || x in h.doomed.value
  }

  ghost predicate Books(h: State) {
    Listed(h) && Retired(h) && Members(h) && Seated(h) && Counts(h) && Quotas(h) && Doomed(h)
  }

  // ---- steps that leave the books alone

  predicate SameSeat(s: Sub, r: Sub) {
    s.tenant == r.tenant && s.user == r.user && s.group == r.group && s.closed == r.closed
  }

  predicate SameRoom(g: Group, f: Group) {
    g.tenant == f.tenant && g.conns == f.conns && g.byUser == f.byUser && g.cancelled == f.cancelled
  }

  /** Only what is read and delivered differs. */
  ghost predicate Apart(h: State, n: State) {
    && n.perUser == h.perUser && n.perTenant == h.perTenant && n.tenants == h.tenants && n.cancelled == h.cancelled
    && n.doomed == h.doomed
    && |n.groups| == |h.groups| && |n.subs| == |h.subs|
    && (forall k | 0 <= k < |h.groups| :: SameRoom(h.groups[k], n.groups[k]))
    && (forall x | 0 <= x < |h.subs| :: SameSeat(h.subs[x], n.subs[x]))
  }

  lemma ApartCounts(h: State, n: State, k: nat)
    requires Apart(h, n) && k < |h.groups| && Counted(h.subs, h.groups[k])
    ensures Counted(n.subs, n.groups[k])
  {
    var g, f := h.groups[k], n.groups[k];
    assert SameRoom(g, f);
    forall u ensures Uses(f, u) == |OfUser(n.subs, f.conns, u)| {
      assert OfUser(n.subs, f.conns, u) == OfUser(h.subs, g.conns, u) by {
        forall x | x in g.conns && x < |h.subs| ensures h.subs[x].user == n.subs[x].user {
          assert SameSeat(h.subs[x], n.subs[x]);
        }
      }
      assert Uses(g, u) == |OfUser(h.subs, g.conns, u)|;
    }
  }

  lemma ApartKeeps(h: State, n: State)
    requires Books(h) && Apart(h, n)
    ensures Books(n)
  {
    forall k | 0 <= k < |n.groups|
      ensures RunsOrRetired(n, k) && Counted(n.subs, n.groups[k]) && Within(n, n.groups[k])
    {
      assert SameRoom(h.groups[k], n.groups[k]) && RunsOrRetired(h, k) && Within(h, h.groups[k]);
      ApartCounts(h, n, k);
      forall u ensures Uses(n.groups[k], u) <= n.perUser { assert Uses(h.groups[k], u) <= h.perUser; }
    }
    forall k, x | 0 <= k < |n.groups| && x in n.groups[k].conns ensures Member(n, k, x) {
      assert SameRoom(h.groups[k], n.groups[k]) && Member(h, k, x) && SameSeat(h.subs[x], n.subs[x]);
    }
    forall x | 0 <= x < |n.subs| && !n.subs[x].closed
      ensures n.subs[x].group < |n.groups| && x in n.groups[n.subs[x].group].conns
    {
      assert SameSeat(h.subs[x], n.subs[x]);
      assert SameRoom(h.groups[h.subs[x].group], n.groups[h.subs[x].group]);
    }
    assert Doomed(n) by {
      forall x | 0 <= x < |n.subs| && n.doomed.Some? ensures n.subs[x].closed || x in n.doomed.value {
        assert SameSeat(h.subs[x], n.subs[x]);
      }
    }
    assert Listed(n) by {
      forall t <- n.tenants ensures n.groups[n.tenants[t]].tenant == t {
        assert SameRoom(h.groups[n.tenants[t]], n.groups[n.tenants[t]]);
      }
    }
  }

  // ---- subscribing

  lemma JoinedBooks(h: State, t: string)
    requires Books(h)
    ensures var n := Joined(h, t);
      && t in n.tenants && n.tenants[t] < |n.groups| && n.subs == h.subs && n.doomed == h.doomed
      && n.cancelled == h.cancelled
      && Listed(n) && Members(n) && Seated(n) && Counts(n) && Quotas(n)
      && (forall k | 0 <= k < |n.groups| && k != n.tenants[t] :: RunsOrRetired(n, k))
      && !n.groups[n.tenants[t]].cancelled
      && (forall s | s != t :: (s in n.tenants) == (s in h.tenants))
  {
    var n := Joined(h, t);
    if t in h.tenants {
      assert RunsOrRetired(h, h.tenants[t]);
    } else {
      forall k | 0 <= k < |h.groups| ensures RunsOrRetired(n, k) { assert RunsOrRetired(h, k); }
      var g := n.groups[|h.groups|];
      assert Counted(n.subs, g) by {
        forall u ensures Uses(g, u) == |OfUser(n.subs, g.conns, u)| { assert OfUser(n.subs, {}, u) == {}; }
      }
      assert Members(n) by {
        forall k, x | 0 <= k < |n.groups| && x in n.groups[k].conns ensures Member(n, k, x) { assert Member(h, k, x); }
      }
    }
  }

  lemma UserJoins(subs: seq<Sub>, conns: set<nat>, s: Sub, u: string)
    requires forall x <- conns :: x < |subs|
    ensures |OfUser(subs + [s], conns + {|subs|}, u)| == |OfUser(subs, conns, u)| + if u == s.user then 1 else 0
  {
    assert OfUser(subs + [s], conns + {|subs|}, u) == OfUser(subs, conns, u) + (if u == s.user then {|subs|} else {});
  }

  /** One more connection in a group: the counter of its user grows with the set. */
  lemma CountJoins(subs: seq<Sub>, g: Group, s: Sub)
    requires Counted(subs, g) && forall x <- g.conns :: x < |subs|
    ensures Counted(subs + [s], Enter(g, |subs|, s.user))
  {
    var f := Enter(g, |subs|, s.user);
    forall u ensures Uses(f, u) == |OfUser(subs + [s], f.conns, u)| {
      hide Enter, OfUser;
      assert Uses(g, u) == |OfUser(subs, g.conns, u)|;
      UserJoins(subs, g.conns, s, u);
      UsesEnter(g, |subs|, s.user, u);
    }
  }

  lemma UsesEnter(g: Group, x: nat, v: string, u: string)
    ensures Enter(g, x, v).conns == g.conns + {x}
    ensures Uses(Enter(g, x, v), u) == Uses(g, u) + if u == v then 1 else 0
    ensures forall w <- Enter(g, x, v).byUser :: w == v || w in g.byUser
  {
  }

  lemma CountIgnores(subs: seq<Sub>, g: Group, s: Sub)
    requires Counted(subs, g) && forall x <- g.conns :: x < |subs|
    ensures Counted(subs + [s], g)
  {
    forall u ensures Uses(g, u) == |OfUser(subs + [s], g.conns, u)| {
      assert OfUser(subs + [s], g.conns, u) == OfUser(subs, g.conns, u);
    }
  }

  lemma FreshTenantHasRoom(h: State, t: string, u: string)
    requires Books(h) && t !in h.tenants
    ensures var n := Joined(h, t); Uses(n.groups[n.tenants[t]], u) == 0 && n.groups[n.tenants[t]].conns == {}
  {
  }

  /** Everything but that the group joined has connections already. */
  ghost predicate Opening(n: State, t: string) {
    && t in n.tenants && n.tenants[t] < |n.groups| && Listed(n) && Members(n) && Seated(n) && Counts(n) && Quotas(n)
    && n.doomed.None?
    && (forall k | 0 <= k < |n.groups| && k != n.tenants[t] :: RunsOrRetired(n, k))
    && !n.groups[n.tenants[t]].cancelled
  }

  lemma SubscribeKeeps(h: State, t: string, u: string, live: bool, up: bool)
    requires Books(h)
    ensures Books(DoSubscribe(h, t, u, live, up))
  {
    if !h.cancelled && (t in h.tenants || up) {
      var n := Joined(h, t);
      assert t !in h.tenants ==> !Full(n, n.groups[n.tenants[t]], u) by {
        if t !in h.tenants { FreshTenantHasRoom(h, t, u); }
      }
      JoinedBooks(h, t);
      assert Opening(n, t) by { hide Joined, Listed, Members, Seated, Counts, Quotas, RunsOrRetired; }
      assert t in h.tenants ==> n == h;
      hide Joined, Books, Opening, Enter;
      if !Full(n, n.groups[n.tenants[t]], u) { SeatKeeps(n, t, u, live); }
    }
  }

  lemma SeatKeeps(n: State, t: string, u: string, live: bool)
    requires Opening(n, t) && !Full(n, n.groups[n.tenants[t]], u)
    ensures Books(Seat(n, t, u, live, n.tenants[t]))
  {
    var k := n.tenants[t];
    var m := Seat(n, t, u, live, k);
    forall j | 0 <= j < |n.groups| ensures SeatedGroup(m, j) { SeatGroup(n, t, u, live, j); }
    SeatMembers(n, t, u, live);
    assert Retired(m) && Counts(m) && Quotas(m) by {
      forall j | 0 <= j < |m.groups|
        ensures RunsOrRetired(m, j) && Counted(m.subs, m.groups[j]) && Within(m, m.groups[j])
      {
        assert SeatedGroup(m, j);
      }
    }
  }

  ghost predicate SeatedGroup(m: State, j: nat) {
    j < |m.groups| && RunsOrRetired(m, j) && Counted(m.subs, m.groups[j]) && Within(m, m.groups[j])
  }

  lemma SeatGroup(n: State, t: string, u: string, live: bool, j: nat)
    requires Opening(n, t) && !Full(n, n.groups[n.tenants[t]], u) && j < |n.groups|
    ensures SeatedGroup(Seat(n, t, u, live, n.tenants[t]), j)
  {
    var k := n.tenants[t];
    var m := Seat(n, t, u, live, k);
    assert m.subs == n.subs + [m.subs[|n.subs|]];
    assert forall x <- n.groups[j].conns :: Member(n, j, x);
    assert Counted(n.subs, n.groups[j]) && Within(n, n.groups[j]);
    assert RunsOrRetired(m, j) by { if j != k { assert RunsOrRetired(n, j); } }
    hide RunsOrRetired, Counts;
    if j == k {
      CountJoins(n.subs, n.groups[k], m.subs[|n.subs|]);
      forall v ensures Uses(m.groups[k], v) <= m.perUser { UsesEnter(n.groups[k], |n.subs|, u, v); }
    } else {
      CountIgnores(n.subs, n.groups[j], m.subs[|n.subs|]);
    }
  }

  lemma SeatMembers(n: State, t: string, u: string, live: bool)
    requires Opening(n, t)
    ensures var m := Seat(n, t, u, live, n.tenants[t]); Listed(m) && Members(m) && Seated(m) && Doomed(m)
  {
    var m := Seat(n, t, u, live, n.tenants[t]);
    forall j, x | 0 <= j < |m.groups| && x in m.groups[j].conns ensures Member(m, j, x) {
      if x in n.groups[j].conns { assert Member(n, j, x); }
    }
  }

  // ---- closing

  lemma UserLeaves(subs: seq<Sub>, conns: set<nat>, x: nat, s: Sub, u: string)
    requires x in conns && x < |subs| && SameUser(s, subs[x])
    ensures |OfUser(subs[x := s], conns - {x}, u)| == |OfUser(subs, conns, u)| - if u == s.user then 1 else 0
  {
    assert OfUser(subs[x := s], conns - {x}, u) == OfUser(subs, conns, u) - {x};
  }

  lemma UsesLeave(g: Group, x: nat, v: string, u: string)
    requires Uses(g, v) > 0
    ensures Leave(g, x, v).conns == g.conns - {x}
    ensures Uses(Leave(g, x, v), u) == Uses(g, u) - if u == v then 1 else 0
  {
  }

  lemma CountLeaves(subs: seq<Sub>, g: Group, x: nat, s: Sub)
    requires Counted(subs, g) && x in g.conns && x < |subs| && SameUser(s, subs[x])
    ensures Uses(g, s.user) > 0
    ensures Counted(subs[x := s], Leave(g, x, s.user))
  {
    var f := Leave(g, x, s.user);
    assert Uses(g, s.user) > 0 by { assert x in OfUser(subs, g.conns, s.user); }
    forall u ensures Uses(f, u) == |OfUser(subs[x := s], f.conns, u)| {
      hide Leave, OfUser;
      assert Uses(g, u) == |OfUser(subs, g.conns, u)|;
      UserLeaves(subs, g.conns, x, s, u);
      UsesLeave(g, x, s.user, u);
    }
  }

  predicate SameUser(s: Sub, r: Sub) { s.user == r.user }

  lemma CountStays(subs: seq<Sub>, g: Group, x: nat, s: Sub)
    requires Counted(subs, g) && x < |subs| && SameUser(s, subs[x])
    ensures Counted(subs[x := s], g)
  {
    forall u ensures Uses(g, u) == |OfUser(subs[x := s], g.conns, u)| {
      assert OfUser(subs[x := s], g.conns, u) == OfUser(subs, g.conns, u);
    }
  }

  /** An open connection sits in its tenant's current group. */
  lemma OpenSeat(h: State, x: nat)
    requires Books(h) && x < |h.subs| && !h.subs[x].closed
    ensures var s := h.subs[x];
      s.tenant in h.tenants && h.tenants[s.tenant] == s.group && s.group < |h.groups| && x in h.groups[s.group].conns
  {
    var k := h.subs[x].group;
    assert Member(h, k, x) && RunsOrRetired(h, k);
  }

  lemma CloseGroup(h: State, x: nat, j: nat)
    requires Books(h) && x < |h.subs| && !h.subs[x].closed && j < |h.groups|
    ensures var m := DoClose(h, x); |m.groups| == |h.groups| && Counted(m.subs, m.groups[j]) && Within(m, m.groups[j])
  {
    OpenSeat(h, x);
    var m := DoClose(h, x);
    var k := h.subs[x].group;
    var s := Shut(h, x);
    assert Counted(h.subs, h.groups[j]) && Within(h, h.groups[j]);
    assert m.subs == h.subs[x := s] && m.groups == h.groups[k := Leave(h.groups[k], x, s.user)];
    hide DoClose, Leave, Counted, Books;
    if j == k {
      CountLeaves(h.subs, h.groups[k], x, s);
      Leaner(h.groups[k].conns, x);
      forall v ensures Uses(m.groups[j], v) <= m.perUser { UsesLeave(h.groups[k], x, s.user, v); }
      UsesLeave(h.groups[k], x, s.user, s.user);
    } else {
      CountStays(h.subs, h.groups[j], x, s);
    }
  }

  lemma Leaner(c: set<nat>, x: nat)
    requires x in c
    ensures |c - {x}| < |c|
  {
  }

  lemma CloseRetires(h: State, x: nat, j: nat)
    requires Books(h) && x < |h.subs| && !h.subs[x].closed && j < |h.groups|
    ensures var m := DoClose(h, x); |m.groups| == |h.groups| && RunsOrRetired(m, j)
  {
    OpenSeat(h, x);
    var m := DoClose(h, x);
    assert RunsOrRetired(h, j);
    if j == h.subs[x].group && m.groups[j].conns == {} {
      CloseGroup(h, x, j);
      forall u ensures u !in m.groups[j].byUser { assert OfUser(m.subs, {}, u) == {}; }
    }
  }

  lemma CloseMembers(h: State, x: nat)
    requires Books(h) && x < |h.subs| && !h.subs[x].closed
    ensures var m := DoClose(h, x); Listed(m) && Members(m) && Seated(m) && Doomed(m)
  {
    OpenSeat(h, x);
    var m := DoClose(h, x);
    forall j, y | 0 <= j < |m.groups| && y in m.groups[j].conns ensures Member(m, j, y) { assert Member(h, j, y); }
  }

  lemma CloseKeeps(h: State, x: nat)
    requires Books(h)
    ensures Books(DoClose(h, x))
  {
    if x < |h.subs| && !h.subs[x].closed {
      var m := DoClose(h, x);
      CloseMembers(h, x);
      assert m.perUser == h.perUser && m.perTenant == h.perTenant && |m.groups| == |h.groups|;
      forall j | 0 <= j < |h.groups|
        ensures RunsOrRetired(m, j) && Counted(m.subs, m.groups[j]) && Within(m, m.groups[j])
      {
        CloseGroup(h, x, j);
        CloseRetires(h, x, j);
      }
    }
  }

  // ---- every run

  lemma PushKeepsSeat(s: Sub, ev: Event)
    ensures SameSeat(s, Push(s, ev).0)
  {
  }

  lemma RestApart(h: State, subs: seq<Sub>, groups: seq<Group>)
    requires |groups| == |h.groups| && |subs| == |h.subs|
    requires forall k | 0 <= k < |h.groups| :: SameRoom(h.groups[k], groups[k])
    requires forall x | 0 <= x < |h.subs| :: SameSeat(h.subs[x], subs[x])
    ensures Apart(h, h.(subs := subs, groups := groups))
  {
  }

  lemma SubApart(h: State, x: nat, s: Sub)
    requires x < |h.subs| && SameSeat(h.subs[x], s)
    ensures Apart(h, h.(subs := h.subs[x := s]))
  {
    RestApart(h, h.subs[x := s], h.groups);
  }

  lemma GroupApart(h: State, k: nat, g: Group)
    requires k < |h.groups| && SameRoom(h.groups[k], g)
    ensures Apart(h, h.(groups := h.groups[k := g]))
  {
    RestApart(h, h.subs, h.groups[k := g]);
  }

  lemma PushNextApart(h: State, k: nat)
    ensures Apart(h, DoPushNext(h, k))
  {
    var n := DoPushNext(h, k);
    if n != h {
      var g := h.groups[k];
      PushKeepsSeat(h.subs[g.todo[0]], EventOf(g.entry.value));
      RestApart(h, n.subs, n.groups);
    }
  }

  lemma ReplayApart(h: State, x: nat, id: Id, count: nat)
    ensures Apart(h, DoReplayReset(h, x)) && Apart(h, DoReplayRead(h, x, id, count)) && Apart(h, DoReplayPush(h, x))
  {
    hide Apart, Push;
    RestApart(h, h.subs, h.groups);
    if x < |h.subs| {
      PushKeepsSeat(h.subs[x], Reset);
      SubApart(h, x, DoReplayReset(h, x).subs[x]);
      SubApart(h, x, DoReplayRead(h, x, id, count).subs[x]);
      ReplayPushApart(h, x);
    }
  }

  lemma ReplayPushApart(h: State, x: nat)
    ensures Apart(h, DoReplayPush(h, x))
  {
    if x < |h.subs| && h.subs[x].replay != [] {
      PushKeepsSeat(h.subs[x].(replay := h.subs[x].replay[1..]), EventOf(h.subs[x].replay[0]));
      SubApart(h, x, DoReplayPush(h, x).subs[x]);
    }
  }

  lemma ReaderApart(h: State, k: nat, count: nat, order: seq<nat>)
    ensures Apart(h, DoRead(h, k, count)) && Apart(h, DoDispatch(h, k, order))
  {
    hide Apart, IsFanOut, After, Upto;
    RestApart(h, h.subs, h.groups);
    if k < |h.groups| {
      GroupApart(h, k, DoRead(h, k, count).groups[k]);
      GroupApart(h, k, DoDispatch(h, k, order).groups[k]);
    }
  }

  lemma LogApart(h: State, logs: map<string, Log>)
    ensures Apart(h, h.(logs := logs))
  {
  }

  lemma TakeApart(h: State, x: nat)
    ensures Apart(h, DoTake(h, x))
  {
    RestApart(h, h.subs, h.groups);
    if x < |h.subs| { SubApart(h, x, DoTake(h, x).subs[x]); }
  }

  lemma CloseStalledKeeps(h: State, k: nat)
    requires Books(h)
    ensures Books(DoCloseStalled(h, k))
  {
    if k < |h.groups| && h.groups[k].closing.Some? {
      var x := h.groups[k].closing.value;
      var m := DoClose(h, x);
      CloseKeeps(h, x);
      assert |m.groups| == |h.groups|;
      hide Books, DoClose;
      GroupApart(m, k, m.groups[k].(closing := None));
      ApartKeeps(m, DoCloseStalled(h, k));
    }
  }

  lemma ShutdownKeeps(h: State)
    requires Books(h)
    ensures Books(h.(cancelled := true)) && Books(DoSnapshot(h))
  {
    forall n | n in [h.(cancelled := true), DoSnapshot(h)] ensures Books(n) {
      assert Listed(n) && Quotas(n) && Doomed(n) && Counts(n) && Seated(n);
      assert Members(n) by {
        forall k, x | 0 <= k < |n.groups| && x in n.groups[k].conns ensures Member(n, k, x) { assert Member(h, k, x); }
      }
      assert Retired(n) by {
        forall k | 0 <= k < |n.groups| ensures RunsOrRetired(n, k) { assert RunsOrRetired(h, k); }
      }
    }
  }

  predicate Delivers(step: Step) {
    !(step.Subscribe? || step.CloseStalled? || step.Close? || step.Cancel? || step.Snapshot?)
  }

  /** The steps that deliver, read, publish or trim leave the books alone. */
  lemma DeliveryApart(h: State, step: Step)
    requires Delivers(step)
    ensures Apart(h, Next(h, step))
  {
    hide Apart, DoReplayReset, DoReplayRead, DoReplayPush, DoRead, DoDispatch, DoPushNext, DoTake;
    match step
    case Publish(t, e) => LogApart(h, DoPublish(h, t, e).logs);
    case Trim(t, n) => LogApart(h, DoTrim(h, t, n).logs);
    case Take(x) => TakeApart(h, x);
    case ReplayReset(x) => ReplayApart(h, x, ZERO, 0);
    case ReplayRead(x, id, n) => ReplayApart(h, x, id, n);
    case ReplayPush(x) => ReplayPushApart(h, x);
    case Read(k, n) => ReaderApart(h, k, n, []);
    case Dispatch(k, order) => ReaderApart(h, k, 0, order);
    case PushNext(k) => PushNextApart(h, k);
  }

  lemma StepKeeps(h: State, step: Step)
    requires Books(h)
    ensures Books(Next(h, step))
  {
    hide Books, Apart, DoSubscribe, DoCloseStalled, DoClose, DoSnapshot;
    match step
    case Subscribe(t, u, live, up) => SubscribeKeeps(h, t, u, live, up);
    case Close(x) => CloseKeeps(h, x);
    case CloseStalled(k) => CloseStalledKeeps(h, k);
    case Cancel => ShutdownKeeps(h);
    case Snapshot => ShutdownKeeps(h);
    case _ =>
      DeliveryApart(h, step);
      hide Next;
      ApartKeeps(h, Next(h, step));
  }

  /** In every state the hub can reach, under any interleaving, the books are right. */
  lemma {:induction false} BooksAlways(perUser: int, perTenant: int, steps: seq<Step>)
    ensures Books(Run(NewHub(perUser, perTenant), steps))
  {
    if steps != [] {
      BooksAlways(perUser, perTenant, steps[..|steps| - 1]);
      hide Next, Books;
      StepKeeps(Run(NewHub(perUser, perTenant), steps[..|steps| - 1]), steps[|steps| - 1]);
    }
  }

  // ---- what the books say

  /** The open connections of a tenant. */
  ghost function Open(h: State, t: string): set<nat> {
    set x | 0 <= x < |h.subs| && !h.subs[x].closed && h.subs[x].tenant == t
  }

  lemma OpenIsConns(h: State, t: string)
    requires Books(h)
    ensures t in h.tenants ==> h.tenants[t] < |h.groups| && Open(h, t) == h.groups[h.tenants[t]].conns
    ensures t in h.tenants <==> Open(h, t) != {}
  {
    forall x <- Open(h, t) ensures t in h.tenants && x in h.groups[h.tenants[t]].conns { OpenSeat(h, x); }
    if t in h.tenants {
      assert RunsOrRetired(h, h.tenants[t]);
      forall x <- h.groups[h.tenants[t]].conns ensures x in Open(h, t) { assert Member(h, h.tenants[t], x); }
    }
  }

  /** In every reachable state a tenant has an entry exactly when it has open
      connections, its counters are the numbers of open connections of each user,
      and neither quota is exceeded. */
  lemma Accounts(perUser: int, perTenant: int, steps: seq<Step>, t: string, u: string)
    ensures var h := Run(NewHub(perUser, perTenant), steps);
      && (t in h.tenants <==> Open(h, t) != {})
      && (t in h.tenants ==>
          h.tenants[t] < |h.groups| && Uses(h.groups[h.tenants[t]], u) == |OfUser(h.subs, Open(h, t), u)|)
      && |Open(h, t)| <= Limit(perTenant, 2000)
      && |OfUser(h.subs, Open(h, t), u)| <= Limit(perUser, 5)
  {
    var h := Run(NewHub(perUser, perTenant), steps);
    BooksAlways(perUser, perTenant, steps);
    LimitsStay(NewHub(perUser, perTenant), steps);
    OpenIsConns(h, t);
    UsesIsOpen(h, t, u);
  }

  lemma UsesIsOpen(h: State, t: string, u: string)
    requires Books(h)
    ensures t in h.tenants ==>
      h.tenants[t] < |h.groups| && Uses(h.groups[h.tenants[t]], u) == |OfUser(h.subs, Open(h, t), u)|
    ensures |OfUser(h.subs, Open(h, t), u)| <= h.perUser && |Open(h, t)| <= h.perTenant
    ensures h.perUser > 0 && h.perTenant > 0
    ensures t !in h.tenants ==> OfUser(h.subs, Open(h, t), u) == {}
  {
    OpenIsConns(h, t);
    if t in h.tenants {
      var k := h.tenants[t];
      assert Within(h, h.groups[k]) && Counted(h.subs, h.groups[k]);
      assert Uses(h.groups[k], u) == |OfUser(h.subs, h.groups[k].conns, u)|;
    }
  }

  lemma LimitStays(h: State, step: Step)
    ensures Next(h, step).perUser == h.perUser && Next(h, step).perTenant == h.perTenant
    ensures h.cancelled ==> Next(h, step).cancelled
  {
  }

  lemma {:induction false} LimitsStay(h: State, steps: seq<Step>)
    ensures Run(h, steps).perUser == h.perUser && Run(h, steps).perTenant == h.perTenant
    ensures h.cancelled ==> Run(h, steps).cancelled
  {
    if steps != [] {
      LimitsStay(h, steps[..|steps| - 1]);
      hide Next;
      LimitStays(Run(h, steps[..|steps| - 1]), steps[|steps| - 1]);
    }
  }

  // ---- shutdown

  ghost predicate StaysShut(h: State, n: State) {
    && |h.subs| <= |n.subs| && (h.cancelled ==> n.cancelled && |n.subs| == |h.subs|)
    && (forall x | 0 <= x < |h.subs| && h.subs[x].closed :: n.subs[x].closed)
  }

  lemma CloseShuts(h: State, x: nat)
    ensures StaysShut(h, DoClose(h, x)) && (x < |h.subs| ==> DoClose(h, x).subs[x].closed)
  {
    hide Leave;
  }

  /** No step opens a closed connection; once the hub is cancelled none is added. */
  lemma ClosedStays(h: State, step: Step)
    ensures StaysShut(h, Next(h, step))
    ensures step.Close? && step.sub < |h.subs| ==> Next(h, step).subs[step.sub].closed
  {
    hide DoClose, Enter;
    match step
    case Subscribe(t, u, live, up) =>
    case Close(x) => CloseShuts(h, x);
    case CloseStalled(k) => if k < |h.groups| && h.groups[k].closing.Some? { CloseShuts(h, h.groups[k].closing.value); }
    case Cancel =>
    case Snapshot =>
    case _ =>
      DeliveryApart(h, step);
      hide Next;
      forall x | 0 <= x < |h.subs| ensures h.subs[x].closed == Next(h, step).subs[x].closed {
        assert SameSeat(h.subs[x], Next(h, step).subs[x]);
      }
  }

  /** After the hub is cancelled, whatever is open was open before and has not been closed since. */
  lemma {:induction false} ShutdownRun(h: State, more: seq<Step>)
    requires h.cancelled
    ensures var n := Run(h, more);
      n.cancelled && |n.subs| == |h.subs|
      && forall x | 0 <= x < |n.subs| :: n.subs[x].closed || (!h.subs[x].closed && Close(x) !in more)
  {
    if more != [] {
      var m := more[..|more| - 1];
      assert more == m + [more[|more| - 1]];
      ShutdownRun(h, m);
      hide Next;
      ClosedStays(Run(h, m), more[|more| - 1]);
    }
  }

  /** Hub.Close: cancel, list what is open, close each of it, with any other steps
      between. At the end nothing is open, no tenant is left, and whatever follows
      opens nothing. */
  lemma ShutdownIsFinal(perUser: int, perTenant: int, before: seq<Step>, more: seq<Step>)
    requires var h := Run(NewHub(perUser, perTenant), before);
      h.doomed.Some? && forall x <- h.doomed.value :: Close(x) in more
    ensures var n := Run(Run(NewHub(perUser, perTenant), before), more);
      n.tenants == map[] && forall x | 0 <= x < |n.subs| :: n.subs[x].closed
  {
    var h := Run(NewHub(perUser, perTenant), before);
    BooksAlways(perUser, perTenant, before);
    assert h.cancelled && forall x | 0 <= x < |h.subs| :: h.subs[x].closed || x in h.doomed.value;
    ShutdownRun(h, more);
    var n := Run(h, more);
    RunOn(NewHub(perUser, perTenant), before, more);
    BooksAlways(perUser, perTenant, before + more);
    NoneOpen(n);
  }

  lemma NoneOpen(h: State)
    requires Books(h) && forall x | 0 <= x < |h.subs| :: h.subs[x].closed
    ensures h.tenants == map[]
  {
    forall t ensures t !in h.tenants {
      OpenIsConns(h, t);
      assert Open(h, t) == {};
    }
  }

  lemma {:induction false} RunOn(h: State, a: seq<Step>, b: seq<Step>)
    ensures Run(Run(h, a), b) == Run(h, a + b)
  {
    if b == [] {
      assert a + b == a;
    } else {
      RunOn(h, a, b[..|b| - 1]);
      assert (a + b)[..|a + b| - 1] == a + b[..|b| - 1];
      hide Next;
    }
  }
}
