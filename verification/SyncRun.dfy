/** A sync run: the plan applied to the store, change by change, and the theorem
    that a second run over the same hosts finds nothing to do. */
module SyncRun {
  import opened Optional
  import opened Store
  import opened InvSync
  import Seqs

  /** Ids, tags, clock and store failures, change by change. */
  datatype World = World(mint: nat -> string, autoTag: (nat, nat) -> string, now: nat -> Time, fails: nat -> bool)

  /** Which kinds of changes to apply, and to which hostnames (none named: all). */
  datatype Options = Options(create: bool, update: bool, selected: set<string>)

  /** The outcome so far: the counters and the changes reported; at records the asset of each host dealt with. */
  datatype Run = Run(table: Table<Asset>, created: nat, updated: nat, skipped: nat, excluded: nat, errors: nat,
                     selected: nat, reported: seq<Change>, at: map<string, string>)

  function Begin(t: Table<Asset>): Run { Run(t, 0, 0, 0, 0, 0, 0, [], map[]) }

  function Report(acc: Run, c: Change): Run { acc.(reported := acc.reported + [c]) }

  const ATTEMPTS := 5

  function NewAsset(id: string, tenant: string, tag: string, d: Desired, now: Time): Row<Asset> {
    Row(id, tenant, now, now, ApplyDesired(Asset(tag, "", "", "", "", "", "", "", "deployable", 0.40, map[], ""), d))
  }

  /** Creates an auto-tagged asset, trying another tag while there is a conflict. */
  function TryCreate(t: Table<Asset>, id: string, tenant: string, d: Desired, w: World, i: nat,
                     attempt: nat): Reply<Table<Asset>>
    requires attempt < ATTEMPTS
    decreases ATTEMPTS - attempt
  {
    var r := Store.Create(ASSETS, t, NewAsset(id, tenant, w.autoTag(i, attempt), d, w.now(i)), id, w.now(i));
    if r.err == Conflict && attempt + 1 < ATTEMPTS then TryCreate(t, id, tenant, d, w, i, attempt + 1) else r
  }

  /** The tag of the last attempt. */
  function LastTag(t: Table<Asset>, id: string, tenant: string, d: Desired, w: World, i: nat, attempt: nat): string
    requires attempt < ATTEMPTS
    decreases ATTEMPTS - attempt
  {
    var tag := w.autoTag(i, attempt);
    var r := Store.Create(ASSETS, t, NewAsset(id, tenant, tag, d, w.now(i)), id, w.now(i));
    if r.err == Conflict && attempt + 1 < ATTEMPTS then LastTag(t, id, tenant, d, w, i, attempt + 1) else tag
  }

  function HostOf(hosts: map<string, Host>, id: string): Host { if id in hosts then hosts[id] else NO_HOST }

  predicate Passed(o: Options, c: Change) { o.selected == {} || c.hostname in o.selected }

  predicate Applies(o: Options, c: Change) {
    Passed(o, c) && ((c.action == Action.Create && o.create) || (c.action == Action.Update && o.update))
  }

  function CreateOne(acc: Run, c: Change, d: Desired, tenant: string, w: World, i: nat): Run {
    var r := TryCreate(acc.table, w.mint(i), tenant, d, w, i, 0);
    if w.fails(i) || r.err != OK then acc.(errors := acc.errors + 1)
    else
      var acc := Report(acc, c.(asset := w.mint(i), tag := LastTag(acc.table, w.mint(i), tenant, d, w, i, 0)));
      acc.(table := r.value, created := acc.created + 1, at := acc.at[c.host := w.mint(i)])
  }

  function UpdateOne(acc: Run, c: Change, d: Desired, tenant: string, w: World, i: nat): Run {
    if w.fails(i) || !Has(acc.table, tenant, c.asset) then acc.(errors := acc.errors + 1)
    else
      var row := acc.table[c.asset];
      var r := Store.Update(ASSETS, acc.table, row.(id := c.asset, body := ApplyDesired(row.body, d)), w.now(i));
      if r.err != OK then acc.(errors := acc.errors + 1)
      else Report(acc, c).(table := r.value, updated := acc.updated + 1, at := acc.at[c.host := c.asset])
  }

  function ApplyOne(x: TextOps, acc: Run, c: Change, hosts: map<string, Host>, tenant: string, o: Options, w: World,
                    i: nat): Run {
    if !Passed(o, c) then acc
    else if c.action == Excluded then Report(acc, c).(excluded := acc.excluded + 1)
    else if c.action == Unchanged
    then Report(acc, c).(selected := acc.selected + 1, skipped := acc.skipped + 1, at := acc.at[c.host := c.asset])
    else if !Applies(o, c) then acc.(skipped := acc.skipped + 1)
    else
      var d := DesiredOf(x, HostOf(hosts, c.host));
      var r :=
        if c.action == Action.Create then CreateOne(acc, c, d, tenant, w, i)
        else UpdateOne(acc, c, d, tenant, w, i);
      r.(selected := acc.selected + 1)
  }

  function ApplyAll(x: TextOps, t: Table<Asset>, changes: seq<Change>, hosts: map<string, Host>, tenant: string,
                    o: Options, w: World): Run {
    if changes == [] then Begin(t)
    else
      var n := |changes| - 1;
      ApplyOne(x, ApplyAll(x, t, changes[..n], hosts, tenant, o, w), changes[n], hosts, tenant, o, w, n)
  }

  /** The loop of a run over the planned changes. */
  method Execute(x: TextOps, mem: Mem, changes: seq<Change>, hosts: map<string, Host>, tenant: string, o: Options,
                 w: World)
    returns (run: Run)
    modifies mem`assets
    ensures run == ApplyAll(x, old(mem.assets), changes, hosts, tenant, o, w)
    ensures mem.assets == run.table
  {
    hide ApplyOne;
    run := Begin(mem.assets);
    for i := 0 to |changes|
      invariant run == ApplyAll(x, old(mem.assets), changes[..i], hosts, tenant, o, w) && mem.assets == run.table
    {
      Seqs.TakeMore(changes, i);
      run := ApplyOne(x, run, changes[i], hosts, tenant, o, w, i);
      mem.assets := run.table;
    }
    Seqs.TakeAll(changes);
  }

  // ---- accounting

  function CountPassed(o: Options, changes: seq<Change>): nat {
    if changes == [] then 0
    else CountPassed(o, changes[..|changes| - 1]) + if Passed(o, changes[|changes| - 1]) then 1 else 0
  }

  function Counted(r: Run): nat { r.created + r.updated + r.skipped + r.excluded + r.errors }

  /** What was selected or excluded is reported, or an error. */
  predicate Balanced(r: Run) { |r.reported| + r.errors == r.excluded + r.selected }

  lemma BeginsBalanced(t: Table<Asset>)
    ensures Balanced(Begin(t)) && Counted(Begin(t)) == 0
  {
  }

  lemma OneAccounts(x: TextOps, acc: Run, c: Change, hosts: map<string, Host>, tenant: string, o: Options, w: World,
                    i: nat)
    ensures Counted(ApplyOne(x, acc, c, hosts, tenant, o, w, i)) == Counted(acc) + if Passed(o, c) then 1 else 0
    ensures Balanced(acc) ==> Balanced(ApplyOne(x, acc, c, hosts, tenant, o, w, i))
  {
    hide TryCreate, LastTag, Store.Update, DesiredOf, ApplyDesired;
  }

  /** Every change that the selection lets through is counted exactly once: as
      created, updated, skipped, excluded or failed; and what was selected or excluded
      is reported unless it failed. */
  lemma {:induction false} RunAccounts(x: TextOps, t: Table<Asset>, changes: seq<Change>, hosts: map<string, Host>,
                                       tenant: string, o: Options, w: World)
    ensures Counted(ApplyAll(x, t, changes, hosts, tenant, o, w)) == CountPassed(o, changes)
    ensures Balanced(ApplyAll(x, t, changes, hosts, tenant, o, w))
  {
    hide ApplyOne, Passed, Counted, Balanced;
    if changes == [] {
      assert Balanced(Begin(t)) && Counted(Begin(t)) == 0 by { BeginsBalanced(t); }
    } else {
      var n := |changes| - 1;
      RunAccounts(x, t, changes[..n], hosts, tenant, o, w);
      OneAccounts(x, ApplyAll(x, t, changes[..n], hosts, tenant, o, w), changes[n], hosts, tenant, o, w, n);
    }
  }

  /** The changes selected that are excluded, and those that are unchanged or of a kind switched off. */
  predicate Passive(o: Options, c: Change) {
    || c.action == Unchanged || (c.action == Action.Create && !o.create) || (c.action == Action.Update && !o.update)
  }

  function Number(o: Options, changes: seq<Change>, excluded: bool): nat {
    if changes == [] then 0
    else
      var c := changes[|changes| - 1];
      Number(o, changes[..|changes| - 1], excluded)
      + if Passed(o, c) && (if excluded then c.action == Excluded else Passive(o, c)) then 1 else 0
  }

  lemma CreateCounts(acc: Run, c: Change, d: Desired, tenant: string, w: World, i: nat)
    ensures var r := CreateOne(acc, c, d, tenant, w, i);
      && r.created - acc.created == |r.table| - |acc.table|
      && r.updated == acc.updated && r.skipped == acc.skipped && r.excluded == acc.excluded
  {
    hide TryCreate, LastTag, DiffOne;
    var reply := TryCreate(acc.table, w.mint(i), tenant, d, w, i, 0);
    if reply.err == OK {
      TryCreateAdds(acc.table, w.mint(i), tenant, d, w, i, 0);
      OneKeyMore(acc.table, reply.value, w.mint(i));
    }
  }

  lemma OneKeyMore(t: Table<Asset>, n: Table<Asset>, id: string)
    requires id !in t && n.Keys == t.Keys + {id}
    ensures |n| == |t| + 1
  {
    assert |n.Keys| == |n| && |t.Keys| == |t|;
  }

  lemma UpdateCounts(acc: Run, c: Change, d: Desired, tenant: string, w: World, i: nat)
    ensures var r := UpdateOne(acc, c, d, tenant, w, i);
      && r.created == acc.created && |r.table| == |acc.table|
      && r.skipped == acc.skipped && r.excluded == acc.excluded
  {
    var r := UpdateOne(acc, c, d, tenant, w, i);
    UpdateAddsNone(acc, c, d, tenant, w, i);
    assert |r.table.Keys| == |r.table| && |acc.table.Keys| == |acc.table|;
    hide ApplyDesired, Taken;
  }

  lemma OneCounts(x: TextOps, acc: Run, c: Change, hosts: map<string, Host>, tenant: string, o: Options, w: World,
                  i: nat)
    ensures var r := ApplyOne(x, acc, c, hosts, tenant, o, w, i);
      && r.created - acc.created == |r.table| - |acc.table|
      && r.excluded == acc.excluded + (if Passed(o, c) && c.action == Excluded then 1 else 0)
      && r.skipped == acc.skipped + (if Passed(o, c) && Passive(o, c) then 1 else 0)
  {
    hide CreateOne, UpdateOne, DesiredOf;
    var d := DesiredOf(x, HostOf(hosts, c.host));
    CreateCounts(acc, c, d, tenant, w, i);
    UpdateCounts(acc, c, d, tenant, w, i);
  }

  /** What each counter says: created is how many assets there are more; excluded and skipped are
      the selected changes of excluded hosts, and those unchanged or switched off. The rest of
      what was selected was updated or failed. */
  lemma {:induction false} CountsExactly(x: TextOps, t: Table<Asset>, changes: seq<Change>, hosts: map<string, Host>,
                                         tenant: string, o: Options, w: World)
    ensures var r := ApplyAll(x, t, changes, hosts, tenant, o, w);
      && r.created == |r.table| - |t| && r.excluded == Number(o, changes, true)
      && r.skipped == Number(o, changes, false)
  {
    hide ApplyOne, Passed, Passive;
    if changes != [] {
      var n := |changes| - 1;
      CountsExactly(x, t, changes[..n], hosts, tenant, o, w);
      OneCounts(x, ApplyAll(x, t, changes[..n], hosts, tenant, o, w), changes[n], hosts, tenant, o, w, n);
    }
  }

  // ---- what a run does not touch

  lemma NewAssetIsInStep(id: string, tenant: string, tag: string, d: Desired, now: Time)
    ensures DiffOne(ASSETS.fill(NewAsset(id, tenant, tag, d, now).body), d) == NO_DELTA
  {
    var a := NewAsset(id, tenant, tag, d, now).body;
    assert a.tags == d.tags;
    assert DiffOne(ASSETS.fill(a), d).tags == map[];
  }

  lemma {:induction false} TryCreateAdds(t: Table<Asset>, id: string, tenant: string, d: Desired, w: World, i: nat,
                                         attempt: nat)
    requires attempt < ATTEMPTS && TryCreate(t, id, tenant, d, w, i, attempt).err == OK
    ensures var t' := TryCreate(t, id, tenant, d, w, i, attempt).value;
            && id !in t && t'.Keys == t.Keys + {id}
            && (forall y <- t :: t'[y] == t[y])
            && t'[id].tenant == tenant && t'[id].id == id && DiffOne(t'[id].body, d) == NO_DELTA
            && t'[id].body.tag == LastTag(t, id, tenant, d, w, i, attempt)
    decreases ATTEMPTS - attempt
  {
    hide DiffOne;
    NewAssetIsInStep(id, tenant, w.autoTag(i, attempt), d, w.now(i));
    var r := Store.Create(ASSETS, t, NewAsset(id, tenant, w.autoTag(i, attempt), d, w.now(i)), id, w.now(i));
    if r.err == Conflict && attempt + 1 < ATTEMPTS {
      TryCreateAdds(t, id, tenant, d, w, i, attempt + 1);
    }
  }

  /** No applied update names the row. */
  ghost predicate Spared(changes: seq<Change>, o: Options, y: string) {
    forall c <- changes :: c.action == Action.Update && Applies(o, c) ==> c.asset != y
  }

  lemma CreateSpares(acc: Run, c: Change, d: Desired, tenant: string, w: World, i: nat, y: string)
    requires y in acc.table
    ensures var t' := CreateOne(acc, c, d, tenant, w, i).table; y in t' && t'[y] == acc.table[y]
  {
    if TryCreate(acc.table, w.mint(i), tenant, d, w, i, 0).err == OK {
      TryCreateAdds(acc.table, w.mint(i), tenant, d, w, i, 0);
    }
    hide TryCreate, LastTag;
  }

  lemma UpdateSpares(acc: Run, c: Change, d: Desired, tenant: string, w: World, i: nat, y: string)
    requires y in acc.table && (c.asset != y || acc.table[y].tenant != tenant)
    ensures var t' := UpdateOne(acc, c, d, tenant, w, i).table; y in t' && t'[y] == acc.table[y]
  {
    hide ApplyDesired, Taken;
  }

  lemma OneSpares(x: TextOps, acc: Run, c: Change, hosts: map<string, Host>, tenant: string, o: Options, w: World,
                  i: nat, y: string)
    requires y in acc.table
    requires !(c.action == Action.Update && Applies(o, c) && c.asset == y) || acc.table[y].tenant != tenant
    ensures var t' := ApplyOne(x, acc, c, hosts, tenant, o, w, i).table; y in t' && t'[y] == acc.table[y]
  {
    hide CreateOne, UpdateOne, DesiredOf;
    var d := DesiredOf(x, HostOf(hosts, c.host));
    if Applies(o, c) && c.action == Action.Create {
      CreateSpares(acc, c, d, tenant, w, i, y);
    } else if Applies(o, c) {
      UpdateSpares(acc, c, d, tenant, w, i, y);
    }
  }

  /** Whatever the filter, the selection and the options, a row is only changed by
      an update that names it and is applied: assets of excluded hosts, of hosts
      not selected and of other tenants stay as they are, and none is deleted. */
  lemma {:induction false} RunSpares(x: TextOps, t: Table<Asset>, changes: seq<Change>, hosts: map<string, Host>,
                                     tenant: string, o: Options, w: World, y: string)
    requires y in t && Spared(changes, o, y)
    ensures var t' := ApplyAll(x, t, changes, hosts, tenant, o, w).table; y in t' && t'[y] == t[y]
  {
    hide ApplyOne, Applies;
    if changes != [] {
      var n := |changes| - 1;
      assert changes[n] in changes;
      RunSpares(x, t, changes[..n], hosts, tenant, o, w, y);
      OneSpares(x, ApplyAll(x, t, changes[..n], hosts, tenant, o, w), changes[n], hosts, tenant, o, w, n, y);
    }
  }

  /** Without the option to create no asset is added; without the option to update none is changed;
      an asset that only hosts not selected would have updated is not changed. */
  lemma OptionsHold(x: TextOps, t: Table<Asset>, changes: seq<Change>, hosts: map<string, Host>, tenant: string,
                    o: Options, w: World, y: string)
    ensures !o.create && y !in t ==> y !in ApplyAll(x, t, changes, hosts, tenant, o, w).table
    ensures y in t && (!o.update || NotSelected(changes, o, y)) ==>
      var t' := ApplyAll(x, t, changes, hosts, tenant, o, w).table; y in t' && t'[y] == t[y]
  {
    if !o.create && y !in t { NothingCreated(x, t, changes, hosts, tenant, o, w, y); }
    hide ApplyAll;
    if y in t && Spared(changes, o, y) { RunSpares(x, t, changes, hosts, tenant, o, w, y); }
  }

  ghost predicate NotSelected(changes: seq<Change>, o: Options, y: string) {
    forall c <- changes | c.action == Action.Update && c.asset == y :: o.selected != {} && c.hostname !in o.selected
  }

  lemma UpdateAddsNone(acc: Run, c: Change, d: Desired, tenant: string, w: World, i: nat)
    ensures UpdateOne(acc, c, d, tenant, w, i).table.Keys == acc.table.Keys
  {
    hide ApplyDesired, Taken;
  }

  lemma {:induction false} NothingCreated(x: TextOps, t: Table<Asset>, changes: seq<Change>, hosts: map<string, Host>,
                                          tenant: string, o: Options, w: World, y: string)
    requires !o.create && y !in t
    ensures y !in ApplyAll(x, t, changes, hosts, tenant, o, w).table
  {
    hide CreateOne, UpdateOne, DesiredOf;
    if changes != [] {
      var n := |changes| - 1;
      var acc, c := ApplyAll(x, t, changes[..n], hosts, tenant, o, w), changes[n];
      NothingCreated(x, t, changes[..n], hosts, tenant, o, w, y);
      UpdateAddsNone(acc, c, DesiredOf(x, HostOf(hosts, c.host)), tenant, w, n);
    }
  }

  /** ... and another tenant's row is not changed even by an update that names it. */
  lemma {:induction false} RunLeavesOthers(x: TextOps, t: Table<Asset>, changes: seq<Change>, hosts: map<string, Host>,
                                           tenant: string, o: Options, w: World, y: string)
    requires y in t && t[y].tenant != tenant
    ensures var t' := ApplyAll(x, t, changes, hosts, tenant, o, w).table; y in t' && t'[y] == t[y]
  {
    hide ApplyOne;
    if changes != [] {
      var n := |changes| - 1;
      RunLeavesOthers(x, t, changes[..n], hosts, tenant, o, w, y);
      OneSpares(x, ApplyAll(x, t, changes[..n], hosts, tenant, o, w), changes[n], hosts, tenant, o, w, n, y);
    }
  }

  // ---- what a run reports

  /** Rows keep their tenant and their tag. */
  ghost predicate SameTags(t: Table<Asset>, n: Table<Asset>) {
    forall y <- t :: y in n && n[y].tenant == t[y].tenant && n[y].body.tag == t[y].body.tag
  }

  predicate Told(t: Table<Asset>, tenant: string, c: Change) {
    c.action == Action.Create ==> Has(t, tenant, c.asset) && t[c.asset].body.tag == c.tag
  }

  ghost predicate AllTold(r: Run, tenant: string) { forall c <- r.reported :: Told(r.table, tenant, c) }

  lemma CreateTells(acc: Run, c: Change, d: Desired, tenant: string, w: World, i: nat)
    requires AllTold(acc, tenant)
    ensures AllTold(CreateOne(acc, c, d, tenant, w, i), tenant)
  {
    if TryCreate(acc.table, w.mint(i), tenant, d, w, i, 0).err == OK {
      TryCreateAdds(acc.table, w.mint(i), tenant, d, w, i, 0);
    }
    hide TryCreate, LastTag, DiffOne;
  }

  lemma UpdateTells(acc: Run, c: Change, d: Desired, tenant: string, w: World, i: nat)
    requires AllTold(acc, tenant) && c.action != Action.Create
    ensures AllTold(UpdateOne(acc, c, d, tenant, w, i), tenant)
  {
    assert SameTags(acc.table, UpdateOne(acc, c, d, tenant, w, i).table);
    hide Taken, SameTags;
  }

  lemma OneTells(x: TextOps, acc: Run, c: Change, hosts: map<string, Host>, tenant: string, o: Options, w: World,
                 i: nat)
    requires AllTold(acc, tenant)
    ensures AllTold(ApplyOne(x, acc, c, hosts, tenant, o, w, i), tenant)
  {
    hide CreateOne, UpdateOne, DesiredOf;
    var d := DesiredOf(x, HostOf(hosts, c.host));
    if Applies(o, c) && c.action == Action.Create {
      CreateTells(acc, c, d, tenant, w, i);
    } else if Applies(o, c) {
      UpdateTells(acc, c, d, tenant, w, i);
    }
  }

  /** Every creation reported names an asset the tenant has after the run, under the tag reported. */
  lemma {:induction false} RunTells(x: TextOps, t: Table<Asset>, changes: seq<Change>, hosts: map<string, Host>,
                                    tenant: string, o: Options, w: World)
    ensures AllTold(ApplyAll(x, t, changes, hosts, tenant, o, w), tenant)
  {
    hide ApplyOne, AllTold;
    if changes == [] {
      assert AllTold(Begin(t), tenant) by { BeginsTold(t, tenant); }
    } else {
      var n := |changes| - 1;
      RunTells(x, t, changes[..n], hosts, tenant, o, w);
      OneTells(x, ApplyAll(x, t, changes[..n], hosts, tenant, o, w), changes[n], hosts, tenant, o, w, n);
    }
  }

  lemma BeginsTold(t: Table<Asset>, tenant: string)
    ensures AllTold(Begin(t), tenant)
  {
  }

  // ---- what a plan is

  /** Different hosts, and no asset claimed twice. */
  predicate Apart(a: Change, b: Change) {
    a.host != b.host && (a.action != Action.Create && b.action != Action.Create ==> a.asset != b.asset)
  }

  ghost predicate AllApart(s: seq<Change>) { forall i, j :: 0 <= i < j < |s| ==> Apart(s[i], s[j]) }

  function ByHost(hosts: seq<Host>): map<string, Host> {
    if hosts == [] then map[] else ByHost(hosts[..|hosts| - 1])[hosts[|hosts| - 1].id := hosts[|hosts| - 1]]
  }

  /** Distinct ids, none empty. */
  ghost predicate HostsApart(hosts: seq<Host>) {
    && (forall i :: 0 <= i < |hosts| ==> hosts[i].id != "")
    && (forall i, j :: 0 <= i < j < |hosts| ==> hosts[i].id != hosts[j].id)
  }

  lemma {:induction false} ByHostAt(hosts: seq<Host>, i: nat)
    requires HostsApart(hosts) && i < |hosts|
    ensures HostOf(ByHost(hosts), hosts[i].id) == hosts[i]
  {
    var n := |hosts| - 1;
    if i < n {
      ByHostAt(hosts[..n], i);
    }
  }

  /** The assets claimed are those of the changes that are not creations. */
  ghost predicate ClaimedBy(p: Plan) {
    && (forall i :: 0 <= i < |p.changes| && p.changes[i].action != Action.Create ==> p.changes[i].asset in p.claimed)
    && (forall y <- p.claimed ::
          exists i :: 0 <= i < |p.changes| && p.changes[i].action != Action.Create && p.changes[i].asset == y)
  }

  lemma ClaimedMore(p: Plan, c: Change)
    requires ClaimedBy(p)
    ensures ClaimedBy(Plan(p.changes + [c], if c.action == Action.Create then p.claimed else p.claimed + {c.asset}))
  {
    var q := Plan(p.changes + [c], if c.action == Action.Create then p.claimed else p.claimed + {c.asset});
    forall y <- q.claimed
      ensures exists i :: 0 <= i < |q.changes| && q.changes[i].action != Action.Create && q.changes[i].asset == y
    {
      if y in p.claimed {
        var i :| 0 <= i < |p.changes| && p.changes[i].action != Action.Create && p.changes[i].asset == y;
        assert q.changes[i] == p.changes[i];
      } else {
        assert q.changes[|p.changes|] == c;
      }
    }
  }

  lemma DecideShape(x: TextOps, ix: Index, claimed: set<string>, h: Host)
    ensures var c := Decide(x, ix, claimed, h);
            c.host == h.id && c.action != Excluded && (c.action != Action.Create ==> c.asset !in claimed)
  {
    hide Match, DesiredOf, DiffOne;
  }

  lemma NothingClaimed()
    ensures ClaimedBy(Plan([], {}))
  {}

  lemma {:induction false} ClassifyShape(x: TextOps, rows: Rows, hosts: seq<Host>)
    ensures var p := Classify(x, IndexOf(x, rows), hosts);
            && |p.changes| == |hosts| && ClaimedBy(p)
            && (forall i :: 0 <= i < |hosts| ==> p.changes[i].host == hosts[i].id && p.changes[i].action != Excluded)
  {
    hide IndexOf, Decide, ClaimedBy;
    NothingClaimed();
    if hosts != [] {
      var n := |hosts| - 1;
      ClassifyShape(x, rows, hosts[..n]);
      var p := Classify(x, IndexOf(x, rows), hosts[..n]);
      DecideShape(x, IndexOf(x, rows), p.claimed, hosts[n]);
      ClaimedMore(p, Decide(x, IndexOf(x, rows), p.claimed, hosts[n]));
    }
  }

  /** One run claims no asset twice. */
  lemma {:induction false} ClassifyApart(x: TextOps, rows: Rows, hosts: seq<Host>)
    requires HostsApart(hosts)
    ensures AllApart(Classify(x, IndexOf(x, rows), hosts).changes)
  {
    hide IndexOf, Decide;
    if hosts != [] {
      var n := |hosts| - 1;
      ClassifyApart(x, rows, hosts[..n]);
      ClassifyShape(x, rows, hosts[..n]);
      DecideShape(x, IndexOf(x, rows), Classify(x, IndexOf(x, rows), hosts[..n]).claimed, hosts[n]);
    }
  }

  /** A claimed asset is one of the rows; an unchanged one already has what the host asks for. */
  ghost predicate Grounded(x: TextOps, rows: Rows, c: Change, h: Host) {
    c.action == Action.Create ||
    exists r <- rows :: r.id == c.asset && (c.action == Unchanged ==> Synced(x, r.body, h))
  }

  lemma {:induction false} ClassifyGrounded(x: TextOps, rows: Rows, hosts: seq<Host>, i: nat)
    requires i < |hosts| && |Classify(x, IndexOf(x, rows), hosts).changes| == |hosts|
    ensures Grounded(x, rows, Classify(x, IndexOf(x, rows), hosts).changes[i], hosts[i])
  {
    hide IndexOf, DesiredOf, DiffOne;
    var n := |hosts| - 1;
    ClassifyShape(x, rows, hosts[..n]);
    if i < n {
      ClassifyGrounded(x, rows, hosts[..n], i);
    } else {
      MatchIsIn(x, rows, hosts[n]);
      hide Match;
      var m := Match(x, IndexOf(x, rows), hosts[n]);
      if m.Some? {
        assert m.value in rows;
      }
    }
  }

  /** No two rows carry the tag of the same host. */
  ghost predicate TagsApart(rows: Rows, hosts: seq<Host>) {
    forall r <- rows, s <- rows, h <- hosts ::
      HOST_KEY(r) == h.id && HOST_KEY(s) == h.id ==> r == s
  }

  lemma TagMatches(x: TextOps, rows: Rows, hosts: seq<Host>, h: Host, r: Row<Asset>)
    requires TagsApart(rows, hosts) && h in hosts && r in rows && HOST_KEY(r) == h.id && h.id != ""
    ensures Match(x, IndexOf(x, rows), h) == Some(r)
  {
    IndexAgrees(rows, HOST_KEY, h.id);
    FindIsIn(rows, HOST_KEY, h.id);
    hide IndexBy, Find;
  }

  /** A row tagged with the id of one of the hosts is claimed by one of them. */
  lemma {:induction false} TaggedIsClaimed(x: TextOps, rows: Rows, hosts: seq<Host>, all: seq<Host>, r: Row<Asset>,
                                           k: nat)
    requires TagsApart(rows, all) && (forall h <- hosts :: h in all) && r in rows
    requires k < |hosts| && hosts[k].id != "" && HOST_KEY(r) == hosts[k].id
    ensures r.id in Classify(x, IndexOf(x, rows), hosts).claimed
  {
    hide IndexOf, DesiredOf, DiffOne, TagsApart;
    var n := |hosts| - 1;
    if k < n {
      assert forall h <- hosts[..n] :: h in hosts;
      TaggedIsClaimed(x, rows, hosts[..n], all, r, k);
    } else {
      assert hosts[n] in hosts;
      TagMatches(x, rows, all, hosts[n], r);
      hide Match;
    }
  }

  // ---- the same, sorted

  lemma {:induction false} InsertApart(s: seq<Change>, c: Change)
    requires AllApart(s) && forall e <- s :: Apart(e, c) && Apart(c, e)
    ensures AllApart(Insert(s, c)) && forall e <- Insert(s, c) :: e in s || e == c
  {
    if s != [] {
      var n := |s| - 1;
      InsertApart(s[..n], c);
      assert s[n] in s;
      forall e <- s[..n] ensures Apart(e, s[n]) {
        var i :| 0 <= i < n && s[i] == e;
      }
    }
  }

  lemma {:induction false} SortApart(s: seq<Change>)
    requires AllApart(s)
    ensures AllApart(Sort(s)) && forall e <- Sort(s) :: e in s
  {
    hide Insert;
    if s != [] {
      var n := |s| - 1;
      SortApart(s[..n]);
      forall e <- Sort(s[..n]) ensures Apart(e, s[n]) && Apart(s[n], e) {
        var i :| 0 <= i < n && s[..n][i] == e;
        assert s[i] == e;
      }
      InsertApart(Sort(s[..n]), s[n]);
    }
  }

  lemma SortMembers(s: seq<Change>)
    ensures forall e :: e in Sort(s) <==> e in s
  {
    SortIn(s);
    hide Sort;
    forall e ensures e in Sort(s) <==> e in s {
      assert e in Sort(s) <==> e in multiset(Sort(s));
    }
  }
}
