/** The in-process stream store: one list of entries per key, ids made of the clock
    and one counter, lists cut at a length and trimmed at an id. */
module StreamStore {
  import opened Optional
  import opened Hub
  import opened Seqs

  ghost predicate Increasing(es: seq<Entry>) { forall i, j | 0 <= i < j < |es| :: Less(es[i].id, es[j].id) }

  /** The last entries of a list, as many as allowed; no limit when that is not positive. */
  function Cut(es: seq<Entry>, maxLen: int): seq<Entry> { if 0 < maxLen < |es| then es[|es| - maxLen..] else es }

  /** The entries not below an id. */
  function AtLeast(es: seq<Entry>, id: Id): seq<Entry> {
    if es == [] then [] else AtLeast(es[..|es| - 1], id) + (if Less(es[|es| - 1].id, id) then [] else [es[|es| - 1]])
  }

  /** The first entries above an id, or of all without one, at most so many; no limit when that is not positive. */
  function FirstAfter(es: seq<Entry>, id: Option<Id>, count: int): seq<Entry> {
    var all := Wanted(es, 0, id);
    if count > 0 then Upto(all, count) else all
  }

  function Wanted(es: seq<Entry>, i: nat, id: Option<Id>): seq<Entry>
    requires i <= |es|
  {
    if id.Some? then AfterFrom(es, i, id.value) else es[i..]
  }

  lemma WantedNext(es: seq<Entry>, i: nat, id: Option<Id>)
    requires i < |es|
    ensures Wanted(es, i, id) == (if id.None? || Less(id.value, es[i].id) then [es[i]] else []) + Wanted(es, i + 1, id)
  {
  }

  lemma AppendRest(a: seq<Entry>, e: Entry, b: seq<Entry>)
    ensures a + ([e] + b) == (a + [e]) + b
  {
  }

  class Memory {
    var streams: map<string, seq<Entry>>
    var counter: nat

    constructor ()
      ensures streams == map[] && counter == 0
    {
      streams, counter := map[], 0;
    }

    function Stream(key: string): seq<Entry>
      reads this
    {
      if key in streams then streams[key] else []
    }

    method XAdd(key: string, now: int, to: Recipients, data: string, maxLen: int) returns (id: Id)
      modifies this
      ensures id == Id(now, old(counter) + 1) && counter == old(counter) + 1
      ensures streams == old(streams)[key := Cut(old(Stream(key)) + [Entry(id, to, data)], maxLen)]
    {
      counter := counter + 1;
      id := Id(now, counter);
      var es := Stream(key) + [Entry(id, to, data)];
      streams := streams[key := es];
      if maxLen > 0 && |es| > maxLen {
        streams := streams[key := es[|es| - maxLen..]];
      }
    }

    method After(key: string, id: Option<Id>, count: int) returns (out: seq<Entry>)
      ensures out == FirstAfter(Stream(key), id, count)
    {
      out := [];
      var es := Stream(key);
      var i := 0;
      while i < |es|
        invariant i <= |es| && (count > 0 ==> |out| < count)
        invariant Wanted(es, 0, id) == out + Wanted(es, i, id)
      {
        WantedNext(es, i, id);
        if id.None? || Less(id.value, es[i].id) {
          AppendRest(out, es[i], Wanted(es, i + 1, id));
          out := out + [es[i]];
          if count > 0 && |out| == count {
            return;
          }
        }
        i := i + 1;
        hide Wanted;
      }
    }

    method XTrimMinID(key: string, id: Id)
      modifies this
      ensures streams == old(streams)[key := AtLeast(old(Stream(key)), id)] && counter == old(counter)
    {
      var es, keep := Stream(key), [];
      for i := 0 to |es|
        invariant keep == AtLeast(es[..i], id)
        invariant streams == old(streams) && counter == old(counter)
      {
        TakeMore(es, i);
        if !Less(es[i].id, id) {
          keep := keep + [es[i]];
        }
      }
      TakeAll(es);
      streams := streams[key := keep];
    }
  }

  // ---- the ids of a stream

  /** All entries carry a sequence number the counter has passed. */
  ghost predicate Counted(es: seq<Entry>, counter: nat) { forall e <- es :: e.id.seqno <= counter }

  /** An appended entry keeps the ids increasing exactly when the clock has not gone
      back behind the last entry: at the same millisecond the counter decides. */
  lemma AppendKeepsOrder(es: seq<Entry>, counter: nat, now: int, to: Recipients, data: string)
    requires Increasing(es) && Counted(es, counter)
    ensures var n := es + [Entry(Id(now, counter + 1), to, data)];
      Counted(n, counter + 1) && (Increasing(n) <==> es == [] || es[|es| - 1].id.ms <= now)
  {
    var n := es + [Entry(Id(now, counter + 1), to, data)];
    if es != [] {
      var last := es[|es| - 1];
      assert last in es;
      if last.id.ms <= now {
        forall i, j | 0 <= i < j < |n| ensures Less(n[i].id, n[j].id) {
          if j == |es| && i < |es| - 1 { assert Less(es[i].id, last.id); }
        }
      } else {
        assert !Less(n[|es| - 1].id, n[|es|].id);
      }
    }
  }

  /** Cutting drops a first part. */
  lemma CutDropsFront(es: seq<Entry>, maxLen: int) returns (d: nat)
    ensures d <= |es| && Cut(es, maxLen) == es[d..] && (maxLen > 0 ==> |Cut(es, maxLen)| <= maxLen)
  {
    d := if 0 < maxLen < |es| then |es| - maxLen else 0;
  }

  /** With increasing ids, trimming at an id drops a first part as well, so both are
      a trim of the stream at a position. */
  lemma {:induction false} TrimDropsFront(es: seq<Entry>, id: Id) returns (d: nat)
    requires Increasing(es)
    ensures d <= |es| && AtLeast(es, id) == es[d..] && Below(es, id, d)
  {
    if es == [] {
      d := 0;
    } else {
      var n := |es| - 1;
      FrontIncreasing(es);
      hide Increasing, Less;
      d := TrimDropsFront(es[..n], id);
      BelowMore(es, id, d);
      if Less(es[n].id, id) {
        AllBelow(es, id);
        d := |es|;
      } else {
        SliceMore(es, d);
      }
    }
  }

  /** Exactly the first d entries are below an id. */
  ghost predicate Below(es: seq<Entry>, id: Id, d: nat) { forall i | 0 <= i < |es| :: i < d <==> Less(es[i].id, id) }

  lemma FrontIncreasing(es: seq<Entry>)
    requires Increasing(es) && es != []
    ensures Increasing(es[..|es| - 1])
  {
  }

  lemma BelowMore(es: seq<Entry>, id: Id, d: nat)
    requires es != [] && d <= |es| - 1 && Below(es[..|es| - 1], id, d)
    ensures !Less(es[|es| - 1].id, id) ==> Below(es, id, d)
  {
    var front := es[..|es| - 1];
    forall i | 0 <= i < |front| ensures i < d <==> Less(es[i].id, id) { assert front[i] == es[i]; }
  }

  lemma AllBelow(es: seq<Entry>, id: Id)
    requires Increasing(es) && es != [] && Less(es[|es| - 1].id, id)
    ensures Below(es, id, |es|) && AtLeast(es, id) == []
  {
    forall i | 0 <= i < |es| ensures Less(es[i].id, id) { if i < |es| - 1 { assert Less(es[i].id, es[|es| - 1].id); } }
    NoneAtLeast(es, id);
  }

  lemma {:induction false} NoneAtLeast(es: seq<Entry>, id: Id)
    requires forall i | 0 <= i < |es| :: Less(es[i].id, id)
    ensures AtLeast(es, id) == []
  {
    if es != [] { NoneAtLeast(es[..|es| - 1], id); }
  }

  lemma SliceMore(es: seq<Entry>, d: nat)
    requires d < |es|
    ensures es[..|es| - 1][d..] + [es[|es| - 1]] == es[d..]
  {
  }
}
