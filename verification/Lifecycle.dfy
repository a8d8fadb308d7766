/** Assigning and returning assets, the history they write, and the services as one
    machine: over every run the trees stay forests, references resolve, and the history
    of an asset tells who has it. */
module Lifecycle {
  import opened Optional
  import opened Store
  import opened Services

  const DONE := "assigned"
  const RETURNED := "unassigned"

  /** The store, and the ids of the history rows in the order they were inserted. */
  datatype Office = Office(db: Db, log: seq<string>)

  /** Which of the writes of a call succeed. */
  datatype Faults = Faults(update: bool, close: bool, insert: bool)

  // ---- the calls of the store

  function InsertAssignment(o: Office, r: Row<Assignment>): (Err, Office) {
    if r.id in o.db.assignments then (Conflict, o)
    else (OK, Office(o.db.(assignments := o.db.assignments[r.id := r]), o.log + [r.id]))
  }

  /** Closes the open rows of an asset. */
  function CloseRow(r: Row<Assignment>, tenant: string, asset: string, now: Time): Row<Assignment> {
    if r.tenant == tenant && r.body.asset == asset && r.body.returned.None? then
      r.(body := r.body.(returned := Some(now)))
    else r
  }

  function CloseActive(t: Table<Assignment>, tenant: string, asset: string, now: Time): Table<Assignment> {
    map x | x in t :: CloseRow(t[x], tenant, asset, now)
  }

  function SaveAsset(o: Office, r: Row<Asset>, now: Time): (Err, Office) {
    var reply := Store.Update(ASSETS, o.db.assets, r, now);
    (reply.err, o.(db := o.db.(assets := reply.value)))
  }

  // ---- assign and unassign

  function TakenBy(a: Asset, user: string): Asset { a.(status := ASSIGNED, user := user, location := "") }

  function PutBack(a: Asset, location: string): Asset { a.(status := DEPLOYABLE, user := "", location := location) }

  /** What stands in the way of an assignment; known: the user directory has the user. */
  function AssignCheck(o: Office, tenant: string, asset: string, user: string, known: bool): Outcome {
    if user == "" then Invalid
    else if !Has(o.db.assets, tenant, asset) then Missing
    else if o.db.assets[asset].body.status != DEPLOYABLE then WrongState
    else if !known then Invalid
    else Ok
  }

  /** Saves the asset, then writes the history row. */
  function Assign(o: Office, tenant: string, asset: string, user: string, known: bool, row: NewId, notes: string,
                  now: Time, f: Faults): (Outcome, Office) {
    var check := AssignCheck(o, tenant, asset, user, known);
    if check != Ok then (check, o)
    else if !f.update then (StoreError, o)
    else
      var a := o.db.assets[asset];
      var (e, n) := SaveAsset(o, a.(body := TakenBy(a.body, user)), now);
      if e != OK then (OutcomeOf(e), o)
      else if !f.insert then (StoreError, n)
      else
        var (e2, m) := InsertAssignment(n, Row(row, tenant, now, 0, Assignment(asset, user, DONE, None, notes)));
        (OutcomeOf(e2), m)
  }

  function UnassignCheck(o: Office, tenant: string, asset: string, location: string): Outcome {
    if !Has(o.db.assets, tenant, asset) then Missing
    else if o.db.assets[asset].body.status != ASSIGNED then WrongState
    else if !ParentExists(o.db.locations, tenant, location) then Invalid
    else Ok
  }

  function CloseHistory(o: Office, tenant: string, asset: string, now: Time): Office {
    o.(db := o.db.(assignments := CloseActive(o.db.assignments, tenant, asset, now)))
  }

  /** Saves the asset, closes the open rows, then writes the history row. */
  function Unassign(o: Office, tenant: string, asset: string, location: string, row: NewId, notes: string, now: Time,
                    f: Faults): (Outcome, Office) {
    var check := UnassignCheck(o, tenant, asset, location);
    if check != Ok then (check, o)
    else if !f.update then (StoreError, o)
    else
      var a := o.db.assets[asset];
      var (e, n) := SaveAsset(o, a.(body := PutBack(a.body, location)), now);
      if e != OK then (OutcomeOf(e), o)
      else if !f.close then (StoreError, n)
      else
        var n := CloseHistory(n, tenant, asset, now);
        if !f.insert then (StoreError, n)
        else
          var (e2, m) := InsertAssignment(n,
                                          Row(row, tenant, now, 0,
                                              Assignment(asset, a.body.user, RETURNED, Some(now), notes)));
          (OutcomeOf(e2), m)
  }

  // ---- exactly when, and what then

  /** Another asset of the tenant has the tag. */
  ghost predicate TagTaken(t: Table<Asset>, tenant: string, asset: string)
    requires asset in t
  {
    exists x <- t :: x != asset && t[x].tenant == tenant && t[x].body.tag == t[asset].body.tag
  }

  lemma SavesExactly(o: Office, tenant: string, asset: string, a: Asset, now: Time)
    requires Keyed(o.db.assets) && Has(o.db.assets, tenant, asset) && a.tag == o.db.assets[asset].body.tag
    ensures var was := o.db.assets[asset];
      SaveAsset(o, was.(body := a), now) ==
        if TagTaken(o.db.assets, tenant, asset) then (Conflict, o)
        else (OK, o.(db := o.db.(assets := o.db.assets[asset := Row(asset, tenant, was.created, now,
                                                                    a.(rate := Rate(a.rate)))])))
  {
  }

  /** Only a deployable asset can be assigned, to a user that is named and known; when the writes
      succeed it then is: it has the user and no location, and its history one open row more. */
  lemma AssignExactly(o: Office, tenant: string, asset: string, user: string, known: bool, row: NewId, notes: string,
                      now: Time, f: Faults)
    requires Keyed(o.db.assets)
    ensures var (e, n) := Assign(o, tenant, asset, user, known, row, notes, now, f);
      && (e == WrongState <==> user != "" && Has(o.db.assets, tenant, asset)
                               && o.db.assets[asset].body.status != "deployable")
      && (e == Ok <==> user != "" && Has(o.db.assets, tenant, asset) && known
                       && o.db.assets[asset].body.status == "deployable" && !TagTaken(o.db.assets, tenant, asset)
                       && f.update && f.insert && row !in o.db.assignments)
      && (e == Ok ==>
            var was := o.db.assets[asset];
            var a := was.body.(status := "assigned", user := user, location := "", rate := Rate(was.body.rate));
            n == Office(o.db.(assets := o.db.assets[asset := Row(asset, tenant, was.created, now, a)],
                              assignments := o.db.assignments[row := Row(row, tenant, now, 0,
                                Assignment(asset, user, "assigned", None, notes))]),
                        o.log + [row]))
  {
    if AssignCheck(o, tenant, asset, user, known) == Ok {
      SavesExactly(o, tenant, asset, TakenBy(o.db.assets[asset].body, user), now);
      hide SaveAsset, TagTaken;
    }
  }

  lemma ReturnsWhen(o: Office, tenant: string, asset: string, location: string, row: NewId, notes: string, now: Time,
                    f: Faults)
    requires Keyed(o.db.assets) && UnassignCheck(o, tenant, asset, location) == Ok
    ensures var e := Unassign(o, tenant, asset, location, row, notes, now, f).0;
      && e != WrongState
      && (e == Ok <==> !TagTaken(o.db.assets, tenant, asset) && f.update && f.close && f.insert
                       && row !in o.db.assignments)
  {
    var a := PutBack(o.db.assets[asset].body, location);
    SavesExactly(o, tenant, asset, a, now);
    assert CloseActive(o.db.assignments, tenant, asset, now).Keys == o.db.assignments.Keys;
    hide SaveAsset, TagTaken, UnassignCheck, CloseActive, PutBack, Rate;
    var (e, n) := SaveAsset(o, o.db.assets[asset].(body := a), now);
    assert e == OK ==> n.db.assignments == o.db.assignments;
  }

  /** Only an assigned asset can be returned, to no location or to one of the tenant's. */
  lemma UnassignExactly(o: Office, tenant: string, asset: string, location: string, row: NewId, notes: string,
                        now: Time, f: Faults)
    requires Keyed(o.db.assets)
    ensures var e := Unassign(o, tenant, asset, location, row, notes, now, f).0;
      && (e == WrongState <==> Has(o.db.assets, tenant, asset) && o.db.assets[asset].body.status != "assigned")
      && (e == Ok <==> Has(o.db.assets, tenant, asset) && o.db.assets[asset].body.status == "assigned"
                       && (location == "" || Has(o.db.locations, tenant, location))
                       && !TagTaken(o.db.assets, tenant, asset)
                       && f.update && f.close && f.insert && row !in o.db.assignments)
  {
    hide TagTaken;
    if UnassignCheck(o, tenant, asset, location) == Ok {
      hide Unassign;
      ReturnsWhen(o, tenant, asset, location, row, notes, now, f);
    }
  }

  /** When it is returned it is deployable, with nobody, there; the open rows of its history are
      closed, and the return is the next row. */
  lemma UnassignReturns(o: Office, tenant: string, asset: string, location: string, row: NewId, notes: string,
                        now: Time, f: Faults)
    requires Keyed(o.db.assets) && Unassign(o, tenant, asset, location, row, notes, now, f).0 == Ok
    ensures var was, n := o.db.assets[asset], Unassign(o, tenant, asset, location, row, notes, now, f).1;
      var a := was.body.(status := "deployable", user := "", location := location, rate := Rate(was.body.rate));
      var back := Row(row, tenant, now, 0, Assignment(asset, was.body.user, "unassigned", Some(now), notes));
      && n.log == o.log + [row] && row in n.db.assignments && n.db.assignments[row] == back
      && n.db == o.db.(assets := o.db.assets[asset := Row(asset, tenant, was.created, now, a)],
                       assignments := n.db.assignments)
      && n.db.assignments.Keys == o.db.assignments.Keys + {row}
      && forall x <- o.db.assignments :: Settles(o.db.assignments[x], n.db.assignments[x], tenant, asset, now)
  {
    var was, n := o.db.assets[asset], Unassign(o, tenant, asset, location, row, notes, now, f).1;
    SavesExactly(o, tenant, asset, PutBack(was.body, location), now);
    var back := Row(row, tenant, now, 0, Assignment(asset, was.body.user, "unassigned", Some(now), notes));
    assert n.db.assignments == CloseActive(o.db.assignments, tenant, asset, now)[row := back] by {
      hide SaveAsset, CloseActive;
    }
    hide TagTaken;
  }

  /** An open row of the asset is closed now, any other is as it was. */
  predicate Settles(r: Row<Assignment>, n: Row<Assignment>, tenant: string, asset: string, now: Time) {
    n == if r.tenant == tenant && r.body.asset == asset && r.body.returned == None
         then r.(body := r.body.(returned := Some(now))) else r
  }

  // ---- the history of an asset

  function History(t: Table<Assignment>, log: seq<string>, tenant: string, asset: string): seq<Assignment> {
    if log == [] then []
    else
      var x := log[|log| - 1];
      History(t, log[..|log| - 1], tenant, asset)
      + (if x in t && t[x].tenant == tenant && t[x].body.asset == asset then [t[x].body] else [])
  }

  ghost predicate InTurn(h: seq<Assignment>, i: nat)
    requires i < |h|
  {
    if i % 2 == 0 then h[i].action == DONE && h[i].user != "" && (h[i].returned.None? <==> i == |h| - 1)
    else h[i].action == RETURNED && h[i].user == h[i - 1].user && h[i].returned.Some?
  }

  /** Assigned and returned in turn, the same user each time; only the last row can be open. */
  ghost predicate Alternates(h: seq<Assignment>) { forall i | 0 <= i < |h| :: InTurn(h, i) }

  /** Who has the asset after these rows. */
  function Assignee(h: seq<Assignment>): string {
    if h == [] then "" else Holder(Assignee(h[..|h| - 1]), h[|h| - 1])
  }

  function Holder(before: string, r: Assignment): string { if r.action == DONE then r.user else "" }

  ghost function OpenRows(h: seq<Assignment>): set<nat> { set i: nat | i < |h| && h[i].returned.None? }

  /** An asset and its history agree. */
  ghost predicate Agrees(a: Asset, h: seq<Assignment>) {
    && Alternates(h) && a.user == Assignee(h)
    && (a.status == ASSIGNED <==> a.user != "") && (a.user != "" ==> a.location == "")
  }

  /** So an asset is assigned exactly when it has a user, exactly when one row is open, which is that user's. */
  lemma {:induction false} OneOpenRow(a: Asset, h: seq<Assignment>)
    requires Agrees(a, h)
    ensures a.status == ASSIGNED <==> |OpenRows(h)| == 1
    ensures a.status != ASSIGNED <==> OpenRows(h) == {}
    ensures forall i <- OpenRows(h) :: h[i].user == a.user
  {
    HeldWhenOdd(h);
    if |h| % 2 == 0 {
      forall i: nat | i < |h| ensures h[i].returned.Some? { assert InTurn(h, i); }
      assert OpenRows(h) == {};
    } else {
      forall i: nat | i < |h| ensures h[i].returned.None? <==> i == |h| - 1 { assert InTurn(h, i); }
      assert OpenRows(h) == {|h| - 1};
    }
  }

  lemma ActionsDiffer()
    ensures DONE != RETURNED
  {
    assert |DONE| != |RETURNED|;
  }

  /** The asset is with someone exactly when the number of rows is odd. */
  lemma {:induction false} HeldWhenOdd(h: seq<Assignment>)
    requires Alternates(h)
    ensures Assignee(h) != "" <==> |h| % 2 == 1
    ensures |h| % 2 == 1 ==> Assignee(h) == h[|h| - 1].user
  {
    ActionsDiffer();
    if h != [] { assert InTurn(h, |h| - 1); }
  }

  lemma {:induction false} TakenOut(h: seq<Assignment>, r: Assignment)
    requires Alternates(h) && Assignee(h) == "" && r.action == DONE && r.user != "" && r.returned.None?
    ensures Alternates(h + [r]) && Assignee(h + [r]) == r.user
  {
    HeldWhenOdd(h);
    assert (h + [r])[..|h|] == h;
    forall i | 0 <= i < |h + [r]| ensures InTurn(h + [r], i) { if i < |h| { assert InTurn(h, i); } }
  }

  function CloseAll(h: seq<Assignment>, now: Time): seq<Assignment> {
    if h == [] then [] else CloseAll(h[..|h| - 1], now) + [Closed(h[|h| - 1], now)]
  }

  function Closed(r: Assignment, now: Time): Assignment { if r.returned.None? then r.(returned := Some(now)) else r }

  lemma {:induction false} CloseAllAt(h: seq<Assignment>, now: Time, i: nat)
    requires i < |h|
    ensures |CloseAll(h, now)| == |h| && CloseAll(h, now)[i] == Closed(h[i], now)
    decreases |h|
  {
    if |h| > 1 { CloseAllAt(h[..|h| - 1], now, if i < |h| - 1 then i else 0); }
  }

  lemma CloseAllMore(h: seq<Assignment>, r: Assignment, now: Time)
    ensures CloseAll(h + [r], now) == CloseAll(h, now) + [Closed(r, now)]
  {
    assert (h + [r])[..|h|] == h;
  }

  lemma {:induction false} BroughtBack(h: seq<Assignment>, r: Assignment, now: Time)
    requires Alternates(h) && Assignee(h) != "" && r.action == RETURNED && r.user == Assignee(h) && r.returned.Some?
    ensures Alternates(CloseAll(h, now) + [r]) && Assignee(CloseAll(h, now) + [r]) == ""
    ensures Assignee(CloseAll(h, now)) == Assignee(h)
  {
    HeldWhenOdd(h);
    var c := CloseAll(h, now);
    CloseAllAt(h, now, |h| - 1);
    forall i | 0 <= i < |c + [r]| ensures InTurn(c + [r], i) {
      if i < |h| {
        assert InTurn(h, i);
        CloseAllAt(h, now, i);
        if i > 0 { CloseAllAt(h, now, i - 1); }
      }
    }
  }

  // ---- what the writes do to a history

  lemma {:induction false} HistorySame(t: Table<Assignment>, n: Table<Assignment>, log: seq<string>, tenant: string,
                                       asset: string)
    requires forall x <- log :: x in t || x in n ==> SameFor(t, n, x, tenant, asset)
    ensures History(n, log, tenant, asset) == History(t, log, tenant, asset)
  {
    if log != [] {
      assert log[|log| - 1] in log;
      HistorySame(t, n, log[..|log| - 1], tenant, asset);
    }
  }

  /** A row means the same to an asset's history in both tables. */
  ghost predicate SameFor(t: Table<Assignment>, n: Table<Assignment>, x: string, tenant: string, asset: string) {
    Shown(t, x, tenant, asset) == Shown(n, x, tenant, asset)
  }

  ghost function Shown(t: Table<Assignment>, x: string, tenant: string, asset: string): Option<Assignment> {
    if x in t && t[x].tenant == tenant && t[x].body.asset == asset then Some(t[x].body) else None
  }

  lemma {:induction false} HistoryInserted(t: Table<Assignment>, log: seq<string>, r: Row<Assignment>, tenant: string,
                                           asset: string)
    requires r.id !in log
    ensures History(t[r.id := r], log + [r.id], tenant, asset)
         == History(t, log, tenant, asset) + (if r.tenant == tenant && r.body.asset == asset then [r.body] else [])
  {
    assert (log + [r.id])[..|log|] == log;
    HistorySame(t, t[r.id := r], log, tenant, asset);
  }

  lemma {:induction false} HistoryClosed(t: Table<Assignment>, log: seq<string>, tenant: string, asset: string,
                                         now: Time)
    ensures History(CloseActive(t, tenant, asset, now), log, tenant, asset) ==
      CloseAll(History(t, log, tenant, asset), now)
  {
    if log != [] {
      var front, x := log[..|log| - 1], log[|log| - 1];
      HistoryClosed(t, front, tenant, asset, now);
      var h := History(t, front, tenant, asset);
      var n := CloseActive(t, tenant, asset, now);
      assert (x in n <==> x in t) && (x in t ==> n[x] == CloseRow(t[x], tenant, asset, now));
      hide CloseActive, CloseAll;
      if x in t && t[x].tenant == tenant && t[x].body.asset == asset {
        assert History(t, log, tenant, asset) == h + [t[x].body];
        CloseAllMore(h, t[x].body, now);
      } else {
        assert History(t, log, tenant, asset) == h;
      }
    }
  }

  lemma {:induction false} HistoryEmpty(t: Table<Assignment>, log: seq<string>, tenant: string, asset: string)
    requires forall x <- t :: t[x].tenant != tenant || t[x].body.asset != asset
    ensures History(t, log, tenant, asset) == []
  {
    if log != [] { HistoryEmpty(t, log[..|log| - 1], tenant, asset); }
  }

  // ---- the calls as the program makes them

  /** Writes the asset back unless another asset of the tenant has its tag. */
  method Save(st: Mem, r: Row<Asset>, now: Time) returns (e: Err)
    modifies st
    ensures (e, Office(st.Contents(), [])) == SaveAsset(Office(old(st.Contents()), []), r, now)
  {
    var reply := Store.Update(ASSETS, st.assets, r, now);
    if reply.err == OK {
      st.assets := reply.value;
    }
    e := reply.err;
  }

  method CloseRows(st: Mem, tenant: string, asset: string, now: Time)
    modifies st
    ensures st.Contents() == old(st.Contents()).(assignments := CloseActive(old(st.assignments), tenant, asset, now))
  {
    var left := st.assignments.Keys;
    ghost var was := st.assignments;
    while left != {}
      invariant left <= was.Keys && st.assignments.Keys == was.Keys
      invariant st.Contents() == old(st.Contents()).(assignments := st.assignments)
      invariant forall x <- was ::
        st.assignments[x] == if x in left then was[x] else CloseRow(was[x], tenant, asset, now)
      decreases |left|
    {
      var x :| x in left;
      left := left - {x};
      var r := st.assignments[x];
      if r.tenant == tenant && r.body.asset == asset && r.body.returned.None? {
        st.assignments := st.assignments[x := r.(body := r.body.(returned := Some(now)))];
      }
    }
    assert st.assignments == CloseActive(was, tenant, asset, now);
  }

  method Record(st: Mem, ghost log: seq<string>, r: Row<Assignment>) returns (e: Err, ghost n: seq<string>)
    modifies st
    ensures (e, Office(st.Contents(), n)) == InsertAssignment(Office(old(st.Contents()), log), r)
  {
    if r.id in st.assignments {
      return Conflict, log;
    }
    st.assignments := st.assignments[r.id := r];
    return OK, log + [r.id];
  }

  method AssignAsset(st: Mem, ghost log: seq<string>, tenant: string, asset: string, user: string, known: bool,
                     row: NewId, notes: string, now: Time, f: Faults)
    returns (e: Outcome, ghost n: seq<string>)
    requires Keyed(st.assets)
    modifies st
    ensures (e, Office(st.Contents(), n)) ==
      Assign(Office(old(st.Contents()), log), tenant, asset, user, known, row, notes, now, f)
  {
    n := log;
    if user == "" {
      return Invalid, log;
    }
    if !Has(st.assets, tenant, asset) {
      return Missing, log;
    }
    var a := st.assets[asset];
    if a.body.status != DEPLOYABLE {
      return WrongState, log;
    }
    if !known {
      return Invalid, log;
    }
    if !f.update {
      return StoreError, log;
    }
    var err := Save(st, a.(body := TakenBy(a.body, user)), now);
    if err != OK {
      return OutcomeOf(err), log;
    }
    if !f.insert {
      return StoreError, log;
    }
    err, n := Record(st, log, Row(row, tenant, now, 0, Assignment(asset, user, DONE, None, notes)));
    e := OutcomeOf(err);
  }

  method UnassignAsset(st: Mem, ghost log: seq<string>, tenant: string, asset: string, location: string, row: NewId,
                       notes: string, now: Time, f: Faults)
    returns (e: Outcome, ghost n: seq<string>)
    requires Keyed(st.assets)
    modifies st
    ensures (e, Office(st.Contents(), n)) ==
      Unassign(Office(old(st.Contents()), log), tenant, asset, location, row, notes, now, f)
  {
    n := log;
    if !Has(st.assets, tenant, asset) {
      return Missing, log;
    }
    var a := st.assets[asset];
    if a.body.status != ASSIGNED {
      return WrongState, log;
    }
    if location != "" && !Has(st.locations, tenant, location) {
      return Invalid, log;
    }
    if !f.update {
      return StoreError, log;
    }
    var err := Save(st, a.(body := PutBack(a.body, location)), now);
    if err != OK {
      return OutcomeOf(err), log;
    }
    if !f.close {
      return StoreError, log;
    }
    CloseRows(st, tenant, asset, now);
    if !f.insert {
      return StoreError, log;
    }
    err, n := Record(st, log, Row(row, tenant, now, 0, Assignment(asset, a.body.user, RETURNED, Some(now), notes)));
    e := OutcomeOf(err);
  }
}
