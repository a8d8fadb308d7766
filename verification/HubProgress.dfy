/** A tenant's reader, left to itself, catches up with its stream: so what no run withholds
    from a live connection does arrive. */
module HubProgress {
  import opened Optional
  import opened Hub
  import opened HubBooks
  import opened HubComplete
  import HubDelivery

  ghost predicate Readers(steps: seq<Step>, k: nat) { forall step <- steps :: HubDelivery.OfReader(step, k) }

  ghost function At(perUser: int, perTenant: int, steps: seq<Step>): State { Run(NewHub(perUser, perTenant), steps) }

  lemma OneMore(perUser: int, perTenant: int, before: seq<Step>, step: Step)
    ensures At(perUser, perTenant, before + [step]) == Next(At(perUser, perTenant, before), step)
  {
    assert (before + [step])[..|before|] == before;
    hide Next;
  }

  /** The reader is where it was in the stream, with the same entries in hand. */
  predicate SamePlace(g: Group, f: Group) { f.tenant == g.tenant && f.pos == g.pos && f.batch == g.batch }

  lemma Known(perUser: int, perTenant: int, steps: seq<Step>, k: nat)
    requires k < |At(perUser, perTenant, steps).groups|
    ensures var h := At(perUser, perTenant, steps); Queue(h, k) && Cut(LogOf(h, h.groups[k].tenant))
    ensures var h := At(perUser, perTenant, steps); var l := LogOf(h, h.groups[k].tenant);
      Rising(l.entries) ==> Reading(l, h.groups[k])
  {
    BaseAlways(perUser, perTenant, steps);
    var h := At(perUser, perTenant, steps);
    hide Run;
    assert ReaderOk(h, k);
  }

  // ---- finishing an entry

  function Work(g: Group): nat { 2 * |g.todo| + if g.closing.Some? then 1 else 0 }

  lemma PushWorks(h: State, k: nat)
    requires k < |h.groups| && Queue(h, k) && h.groups[k].todo != [] && h.groups[k].closing.None?
    ensures var n := DoPushNext(h, k);
      && n.logs == h.logs && |n.groups| == |h.groups|
      && SamePlace(h.groups[k], n.groups[k]) && Work(n.groups[k]) < Work(h.groups[k])
  {
    var g := h.groups[k];
    assert g.todo[0] in g.todo && Waits(h, k, g.todo[0], g.entry.value);
    hide Push;
  }

  lemma CloseWorks(h: State, k: nat)
    requires k < |h.groups| && h.groups[k].closing.Some?
    ensures var n := DoCloseStalled(h, k);
      && n.logs == h.logs && |n.groups| == |h.groups|
      && SamePlace(h.groups[k], n.groups[k]) && Work(n.groups[k]) < Work(h.groups[k])
  {
    CloseShape(h, h.groups[k].closing.value);
    hide DoClose;
    assert SameReader(h.groups[k], DoClose(h, h.groups[k].closing.value).groups[k]);
  }

  /** The reader pushes to, or closes, whatever is left of the entry in hand. */
  lemma {:induction false} Finishes(perUser: int, perTenant: int, before: seq<Step>, k: nat) returns (steps: seq<Step>)
    requires k < |At(perUser, perTenant, before).groups|
    ensures Readers(steps, k)
    ensures var h, n := At(perUser, perTenant, before), At(perUser, perTenant, before + steps);
      && n.logs == h.logs && |n.groups| == |h.groups| && SamePlace(h.groups[k], n.groups[k]) && Idle(n.groups[k])
    decreases Work(At(perUser, perTenant, before).groups[k])
  {
    var h := At(perUser, perTenant, before);
    steps := [];
    assert before + [] == before;
    Known(perUser, perTenant, before, k);
    if !Idle(h.groups[k]) {
      var step := if h.groups[k].closing.Some? then CloseStalled(k) else PushNext(k);
      OneMore(perUser, perTenant, before, step);
      if h.groups[k].closing.Some? { CloseWorks(h, k); } else { PushWorks(h, k); }
      hide At, Queue, Reading, DoPushNext, DoCloseStalled;
      var rest := Finishes(perUser, perTenant, before + [step], k);
      steps := [step] + rest;
      assert before + [step] + rest == before + steps;
    }
  }

  // ---- finishing a batch

  /** Some order in which to push an entry. */
  lemma {:induction false} ListSet(s: set<nat>) returns (order: seq<nat>)
    ensures (forall i, j :: 0 <= i < j < |order| ==> order[i] != order[j]) && forall x :: x in order <==> x in s
  {
    if s == {} {
      order := [];
    } else {
      var x :| x in s;
      var rest := ListSet(s - {x});
      order := rest + [x];
    }
  }

  lemma FansOut(h: State, g: Group, e: Entry) returns (order: seq<nat>)
    ensures IsFanOut(h, g, e, order)
  {
    order := ListSet(set x | x in g.conns && x < |h.subs| && Targets(e.to, h.subs[x].user));
  }

  lemma {:induction false} Dispatches(perUser: int, perTenant: int, before: seq<Step>, k: nat)
    returns (steps: seq<Step>)
    requires k < |At(perUser, perTenant, before).groups|
    ensures Readers(steps, k)
    ensures var h, n := At(perUser, perTenant, before), At(perUser, perTenant, before + steps);
      && n.logs == h.logs && |n.groups| == |h.groups| && n.groups[k].tenant == h.groups[k].tenant
      && Idle(n.groups[k]) && n.groups[k].batch == [] && n.groups[k].pos == ReadTo(h.groups[k])
    decreases |At(perUser, perTenant, before).groups[k].batch|
  {
    steps := Finishes(perUser, perTenant, before, k);
    var h := At(perUser, perTenant, before + steps);
    if h.groups[k].batch != [] {
      var order := FansOut(h, h.groups[k], h.groups[k].batch[0]);
      var step := Dispatch(k, order);
      OneMore(perUser, perTenant, before + steps, step);
      assert DoDispatch(h, k, order).groups[k] == Dispatched(h.groups[k], order);
      hide At, IsFanOut;
      var rest := Dispatches(perUser, perTenant, before + steps + [step], k);
      assert before + steps + [step] + rest == before + (steps + [step] + rest);
      steps := steps + [step] + rest;
    }
  }

  // ---- reading on

  lemma ReadsOn(h: State, k: nat)
    requires k < |h.groups| && Idle(h.groups[k]) && h.groups[k].batch == []
    requires LogOk(LogOf(h, h.groups[k].tenant)) && Reading(LogOf(h, h.groups[k].tenant), h.groups[k])
    ensures var n := DoRead(h, k, BATCH);
      && n.logs == h.logs && |n.groups| == |h.groups| && n.groups[k].tenant == h.groups[k].tenant
      && (n.groups[k].batch == [] ==> n.groups[k].pos == |LogOf(h, h.groups[k].tenant).entries|)
      && h.groups[k].pos <= n.groups[k].pos && Idle(n.groups[k])
  {
    ReadReads(LogOf(h, h.groups[k].tenant), h.groups[k], BATCH);
    hide After, LogOk, Reading;
  }

  /** From any reachable state, for any reader whose stream has rising ids, whatever it has in
      hand: there are steps of that reader alone, and of no other, after which it has dispatched
      every entry of the stream. */
  lemma {:induction false} CatchesUp(perUser: int, perTenant: int, before: seq<Step>, k: nat)
    returns (steps: seq<Step>)
    requires var h := At(perUser, perTenant, before); k < |h.groups| && Rising(LogOf(h, h.groups[k].tenant).entries)
    ensures Readers(steps, k)
    ensures var h, n := At(perUser, perTenant, before), At(perUser, perTenant, before + steps);
      && n.logs == h.logs && |n.groups| == |h.groups| && n.groups[k].tenant == h.groups[k].tenant
      && Idle(n.groups[k]) && n.groups[k].batch == []
      && n.groups[k].pos == |LogOf(h, h.groups[k].tenant).entries|
    decreases var h := At(perUser, perTenant, before);
      |LogOf(h, h.groups[k].tenant).entries| - ReadTo(h.groups[k])
  {
    Known(perUser, perTenant, before, k);
    var o := At(perUser, perTenant, before);
    steps := ReadsOnce(perUser, perTenant, before, k);
    var there := before + steps;
    Known(perUser, perTenant, there, k);
    var m := At(perUser, perTenant, there);
    if m.groups[k].batch != [] {
      hide At, Rising, Queue;
      var rest := CatchesUp(perUser, perTenant, there, k);
      assert there + rest == before + (steps + rest);
      steps := steps + rest;
    }
  }

  /** The reader finishes what it has in hand, and reads on: to the end, or further than before. */
  lemma ReadsOnce(perUser: int, perTenant: int, before: seq<Step>, k: nat) returns (steps: seq<Step>)
    requires var h := At(perUser, perTenant, before); k < |h.groups| && Rising(LogOf(h, h.groups[k].tenant).entries)
    ensures Readers(steps, k)
    ensures var h, n := At(perUser, perTenant, before), At(perUser, perTenant, before + steps);
      && n.logs == h.logs && |n.groups| == |h.groups| && n.groups[k].tenant == h.groups[k].tenant && Idle(n.groups[k])
      && (if n.groups[k].batch == [] then n.groups[k].pos == |LogOf(h, h.groups[k].tenant).entries|
          else ReadTo(n.groups[k]) > ReadTo(h.groups[k]))
  {
    steps := Dispatches(perUser, perTenant, before, k);
    var here := before + steps;
    var h := At(perUser, perTenant, here);
    Known(perUser, perTenant, here, k);
    OneMore(perUser, perTenant, here, Read(k, BATCH));
    hide At, Rising, Queue;
    ReadsOn(h, k);
    hide DoRead, Reading;
    steps := steps + [Read(k, BATCH)];
    assert here + [Read(k, BATCH)] == before + steps;
  }
}
