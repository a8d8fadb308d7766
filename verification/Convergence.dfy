/** One sync brings every host and its asset into step, so the next finds nothing to do. */
module Convergence {
  import opened Optional
  import opened Store
  import opened InvSync
  import opened SyncRun

  /** Everything on, nothing filtered. */
  const WHOLE := Options(true, true, {})

  type Hosts = map<string, Host>

  /** What is needed of a plan, in whatever order it is applied. */
  ghost predicate Sound(x: TextOps, t: Table<Asset>, tenant: string, hosts: Hosts, changes: seq<Change>) {
    && AllApart(changes)
    && forall c <- changes :: SoundChange(x, t, tenant, hosts, c)
  }

  ghost predicate SoundChange(x: TextOps, t: Table<Asset>, tenant: string, hosts: Hosts, c: Change) {
    && c.action != Excluded && c.host in hosts && hosts[c.host].id == c.host && c.host != ""
    && (c.action != Action.Create ==> Has(t, tenant, c.asset))
    && (c.action == Unchanged ==> Synced(x, t[c.asset].body, hosts[c.host]))
  }

  /** The host's asset is there and in step with it. */
  ghost predicate InStep(x: TextOps, tenant: string, hosts: Hosts, r: Run, h: string) {
    && h in hosts && hosts[h].id == h && h != "" && h in r.at
    && Has(r.table, tenant, r.at[h]) && Synced(x, r.table[r.at[h]].body, hosts[h])
  }

  /** After some changes: exactly the hosts dealt with have an asset, each its own;
      an asset that was there before was claimed by a change. */
  ghost predicate Placed(t: Table<Asset>, changes: seq<Change>, at: map<string, string>) {
    && (forall c <- changes :: c.host in at && (c.action != Action.Create ==> at[c.host] == c.asset))
    && (forall h <- at :: exists c <- changes :: c.host == h)
    && (forall g <- at, h <- at :: at[g] == at[h] ==> g == h)
    && (forall h <- at :: at[h] in t ==> exists c <- changes :: c.action != Action.Create && c.asset == at[h])
  }

  /** Rows that are nobody's asset are as they were. */
  ghost predicate RestUntouched(t: Table<Asset>, r: Run) {
    forall y <- r.table :: y in r.at.Values || (y in t && r.table[y] == t[y])
  }

  ghost predicate Settled(x: TextOps, t: Table<Asset>, tenant: string, hosts: Hosts, changes: seq<Change>, r: Run) {
    && Placed(t, changes, r.at)
    && (forall h <- r.at :: InStep(x, tenant, hosts, r, h))
    && RestUntouched(t, r)
    && forall y <- t :: y in r.table
  }

  // ---- one change

  lemma OtherColumns(a: Asset, d: Desired)
    ensures DiffOne(ASSETS.refill(a), d) == DiffOne(a, d) && DiffOne(ASSETS.fill(a), d) == DiffOne(a, d)
  {}

  /** The effect of one change that went through: the host gets its asset, and only that row changes. */
  ghost predicate Effect(x: TextOps, tenant: string, hosts: Hosts, c: Change, y: string, r: Run, r': Run)
    requires c.host in hosts
  {
    && r'.at == r.at[c.host := y]
    && r'.table.Keys == r.table.Keys + {y}
    && (forall z <- r.table :: z != y ==> r'.table[z] == r.table[z])
    && r'.table[y].tenant == tenant && Synced(x, r'.table[y].body, hosts[c.host])
  }

  lemma UpdateEffect(x: TextOps, tenant: string, hosts: Hosts, c: Change, r: Run, w: World, i: nat)
    requires c.host in hosts
    requires UpdateOne(r, c, DesiredOf(x, hosts[c.host]), tenant, w, i).errors == r.errors
    ensures Effect(x, tenant, hosts, c, c.asset, r, UpdateOne(r, c, DesiredOf(x, hosts[c.host]), tenant, w, i))
  {
    var d := DesiredOf(x, hosts[c.host]);
    var row := r.table[c.asset];
    DiffIsWhatApplyChanges(row.body, d);
    OtherColumns(ApplyDesired(row.body, d), d);
    hide ApplyDesired, DesiredOf, DiffOne, Taken;
  }

  lemma CreateEffect(x: TextOps, tenant: string, hosts: Hosts, c: Change, r: Run, w: World, i: nat)
    requires c.host in hosts
    requires CreateOne(r, c, DesiredOf(x, hosts[c.host]), tenant, w, i).errors == r.errors
    ensures w.mint(i) !in r.table
    ensures Effect(x, tenant, hosts, c, w.mint(i), r, CreateOne(r, c, DesiredOf(x, hosts[c.host]), tenant, w, i))
  {
    var d := DesiredOf(x, hosts[c.host]);
    TryCreateAdds(r.table, w.mint(i), tenant, d, w, i, 0);
    hide TryCreate, LastTag, DesiredOf, DiffOne, ApplyDesired;
  }

  lemma CountingApart(x: TextOps, tenant: string, hosts: Hosts, c: Change, y: string, r: Run, r': Run)
    requires c.host in hosts && Effect(x, tenant, hosts, c, y, r, r')
    ensures Effect(x, tenant, hosts, c, y, r, r'.(selected := r.selected + 1))
  {
  }

  lemma PlacedMore(t: Table<Asset>, changes: seq<Change>, at: map<string, string>, c: Change, y: string)
    requires Placed(t, changes, at) && y !in at.Values && c.host !in at
    requires c.action != Action.Create ==> y == c.asset
    requires c.action == Action.Create ==> y !in t
    ensures Placed(t, changes + [c], at[c.host := y])
  {
    var more, at' := changes + [c], at[c.host := y];
    assert c in more && forall e <- changes :: e in more;
    forall h <- at' ensures exists e <- more :: e.host == h {
      if h != c.host {
        var e :| e in changes && e.host == h;
        assert e in more;
      }
    }
    forall h <- at' | at'[h] in t ensures exists e <- more :: e.action != Action.Create && e.asset == at'[h] {
      if h != c.host {
        var e :| e in changes && e.action != Action.Create && e.asset == at[h];
        assert e in more;
      }
    }
    forall e <- more ensures e.host in at' && (e.action != Action.Create ==> at'[e.host] == e.asset) {
      if e in changes {
        assert e.host in at;
      }
    }
  }

  lemma StepsMore(x: TextOps, t: Table<Asset>, tenant: string, hosts: Hosts, r: Run, r': Run, c: Change, y: string)
    requires (forall h <- r.at :: InStep(x, tenant, hosts, r, h)) && RestUntouched(t, r)
    requires forall z <- t :: z in r.table
    requires c.host in hosts && hosts[c.host].id == c.host && c.host != ""
    requires Effect(x, tenant, hosts, c, y, r, r') && y !in r.at.Values && c.host !in r.at
    ensures (forall h <- r'.at :: InStep(x, tenant, hosts, r', h)) && RestUntouched(t, r')
    ensures forall z <- t :: z in r'.table
  {
    hide Synced;
    forall h <- r'.at ensures InStep(x, tenant, hosts, r', h) {
      if h != c.host {
        assert InStep(x, tenant, hosts, r, h);
        assert r.at[h] in r.at.Values && r.at[h] != y;
      }
    }
    forall z <- r'.table ensures z in r'.at.Values || (z in t && r'.table[z] == t[z]) {
      if z == y {
        assert r'.at[c.host] == y;
      } else if z in r.at.Values {
        var h :| h in r.at && r.at[h] == z;
        assert r'.at[h] == z;
      }
    }
  }

  lemma AssetIsFree(t: Table<Asset>, changes: seq<Change>, at: map<string, string>, c: Change)
    requires Placed(t, changes, at) && c.asset in t && c.action != Action.Create
    requires forall e <- changes :: Apart(e, c)
    ensures c.asset !in at.Values
  {
    forall h <- at ensures at[h] != c.asset {
      if at[h] in t {
        var e :| e in changes && e.action != Action.Create && e.asset == at[h];
        assert Apart(e, c);
      }
    }
  }

  lemma HostIsFree(t: Table<Asset>, changes: seq<Change>, at: map<string, string>, c: Change)
    requires Placed(t, changes, at) && forall e <- changes :: Apart(e, c)
    ensures c.host !in at
  {
    forall h <- at ensures h != c.host {
      var e :| e in changes && e.host == h;
      assert Apart(e, c);
    }
  }

  lemma EffectSettles(x: TextOps, t: Table<Asset>, tenant: string, hosts: Hosts, changes: seq<Change>, c: Change,
                      y: string, r: Run, r': Run)
    requires Settled(x, t, tenant, hosts, changes, r) && SoundChange(x, t, tenant, hosts, c)
    requires Effect(x, tenant, hosts, c, y, r, r') && y !in r.at.Values && c.host !in r.at
    requires if c.action == Action.Create then y !in t else y == c.asset
    ensures Settled(x, t, tenant, hosts, changes + [c], r')
  {
    hide Placed, InStep, RestUntouched, Synced;
    PlacedMore(t, changes, r.at, c, y);
    StepsMore(x, t, tenant, hosts, r, r', c, y);
  }

  lemma AssetsAreFiled(x: TextOps, tenant: string, hosts: Hosts, r: Run)
    requires forall h <- r.at :: InStep(x, tenant, hosts, r, h)
    ensures forall z <- r.at.Values :: z in r.table
  {
    hide Synced;
    forall z <- r.at.Values ensures z in r.table {
      var h :| h in r.at && r.at[h] == z;
      assert InStep(x, tenant, hosts, r, h);
    }
  }

  lemma UnchangedEffect(x: TextOps, t: Table<Asset>, tenant: string, hosts: Hosts, c: Change, r: Run, w: World, i: nat)
    requires SoundChange(x, t, tenant, hosts, c) && c.action == Unchanged && RestUntouched(t, r)
    requires c.asset in r.table && c.asset !in r.at.Values
    ensures Effect(x, tenant, hosts, c, c.asset, r, ApplyOne(x, r, c, hosts, tenant, WHOLE, w, i))
  {
    hide Synced, CreateOne, UpdateOne, DesiredOf;
  }

  /** The change goes through as a creation or an update. */
  lemma ChangeApplies(x: TextOps, t: Table<Asset>, tenant: string, hosts: Hosts, c: Change, r: Run, w: World, i: nat)
    requires SoundChange(x, t, tenant, hosts, c)
    ensures c.action == Action.Create ==>
              ApplyOne(x, r, c, hosts, tenant, WHOLE, w, i) ==
                CreateOne(r, c, DesiredOf(x, hosts[c.host]), tenant, w, i).(selected := r.selected + 1)
    ensures c.action == Action.Update ==>
              ApplyOne(x, r, c, hosts, tenant, WHOLE, w, i) ==
                UpdateOne(r, c, DesiredOf(x, hosts[c.host]), tenant, w, i).(selected := r.selected + 1)
  {
    hide Synced, CreateOne, UpdateOne, DesiredOf;
  }

  lemma OneSettles(x: TextOps, t: Table<Asset>, tenant: string, hosts: Hosts, changes: seq<Change>, c: Change, r: Run,
                   w: World, i: nat)
    requires Settled(x, t, tenant, hosts, changes, r) && SoundChange(x, t, tenant, hosts, c)
    requires forall e <- changes :: Apart(e, c)
    requires ApplyOne(x, r, c, hosts, tenant, WHOLE, w, i).errors == r.errors
    ensures Settled(x, t, tenant, hosts, changes + [c], ApplyOne(x, r, c, hosts, tenant, WHOLE, w, i))
  {
    hide Apart, ApplyOne, CreateOne, UpdateOne, Synced, Effect, Placed, InStep, DesiredOf;
    var r' := ApplyOne(x, r, c, hosts, tenant, WHOLE, w, i);
    HostIsFree(t, changes, r.at, c);
    ChangeApplies(x, t, tenant, hosts, c, r, w, i);
    if c.action == Action.Create {
      CreateEffect(x, tenant, hosts, c, r, w, i);
      CountingApart(x, tenant, hosts, c, w.mint(i), r, CreateOne(r, c, DesiredOf(x, hosts[c.host]), tenant, w, i));
      AssetsAreFiled(x, tenant, hosts, r);
      EffectSettles(x, t, tenant, hosts, changes, c, w.mint(i), r, r');
    } else {
      AssetIsFree(t, changes, r.at, c);
      if c.action == Action.Update {
        UpdateEffect(x, tenant, hosts, c, r, w, i);
        CountingApart(x, tenant, hosts, c, c.asset, r, UpdateOne(r, c, DesiredOf(x, hosts[c.host]), tenant, w, i));
      } else {
        UnchangedEffect(x, t, tenant, hosts, c, r, w, i);
      }
      EffectSettles(x, t, tenant, hosts, changes, c, c.asset, r, r');
    }
  }

  // ---- the run

  lemma ErrorsGrow(x: TextOps, r: Run, c: Change, hosts: Hosts, tenant: string, o: Options, w: World, i: nat)
    ensures ApplyOne(x, r, c, hosts, tenant, o, w, i).errors >= r.errors
  {
    hide TryCreate, LastTag, DesiredOf, Store.Update, ApplyDesired;
  }

  lemma SoundFront(x: TextOps, t: Table<Asset>, tenant: string, hosts: Hosts, changes: seq<Change>)
    requires Sound(x, t, tenant, hosts, changes) && changes != []
    ensures var n := |changes| - 1;
            && Sound(x, t, tenant, hosts, changes[..n]) && SoundChange(x, t, tenant, hosts, changes[n])
            && forall e <- changes[..n] :: Apart(e, changes[n])
  {
    hide SoundChange, Apart;
    var n := |changes| - 1;
    assert changes[n] in changes;
    forall e <- changes[..n] ensures Apart(e, changes[n]) && SoundChange(x, t, tenant, hosts, e) {
      var i :| 0 <= i < n && changes[..n][i] == e;
      assert changes[i] in changes;
      assert Apart(changes[i], changes[n]);
    }
  }

  lemma NothingSettled(x: TextOps, t: Table<Asset>, tenant: string, hosts: Hosts)
    ensures Settled(x, t, tenant, hosts, [], Begin(t))
  {}

  /** A run without errors settles every host of a sound plan. */
  lemma {:induction false} RunSettles(x: TextOps, t: Table<Asset>, tenant: string, hosts: Hosts, changes: seq<Change>,
                                      w: World)
    requires Sound(x, t, tenant, hosts, changes) && ApplyAll(x, t, changes, hosts, tenant, WHOLE, w).errors == 0
    ensures Settled(x, t, tenant, hosts, changes, ApplyAll(x, t, changes, hosts, tenant, WHOLE, w))
  {
    hide ApplyOne, Settled, SoundChange, Apart, Sound;
    if changes == [] {
      NothingSettled(x, t, tenant, hosts);
    } else {
      var n := |changes| - 1;
      SoundFront(x, t, tenant, hosts, changes);
      var r := ApplyAll(x, t, changes[..n], hosts, tenant, WHOLE, w);
      ErrorsGrow(x, r, changes[n], hosts, tenant, WHOLE, w, n);
      RunSettles(x, t, tenant, hosts, changes[..n], w);
      OneSettles(x, t, tenant, hosts, changes[..n], changes[n], r, w, n);
      assert changes == changes[..n] + [changes[n]];
    }
  }

  // ---- the plan is sound

  lemma ListedRow(rows: Rows, t: Table<Asset>, tenant: string, r: Row<Asset>)
    requires Lists(rows, t, tenant)
    ensures r in rows ==> Has(t, tenant, r.id) && t[r.id] == r
    ensures r.id in t && t[r.id] == r && r.tenant == tenant ==> r in rows
  {
    if r in rows {
      var i :| 0 <= i < |rows| && rows[i] == r;
      InIdSet(rows, r.id);
    }
    if r.id in t && t[r.id] == r && r.tenant == tenant {
      assert r.id in IdsOf(t, tenant);
      InIdSet(rows, r.id);
      var i :| 0 <= i < |rows| && rows[i].id == r.id;
      assert rows[i] in rows;
    }
  }

  lemma PlanIsSound(x: TextOps, t: Table<Asset>, tenant: string, hosts: seq<Host>, rows: Rows)
    requires Lists(rows, t, tenant) && HostsApart(hosts)
    ensures Sound(x, t, tenant, ByHost(hosts), Diff(x, hosts, rows))
  {
    var p := Classify(x, IndexOf(x, rows), hosts);
    ClassifyShape(x, rows, hosts);
    ClassifyApart(x, rows, hosts);
    SortApart(p.changes);
    SortMembers(p.changes);
    hide Classify, Sort, AllApart, Lists;
    forall c <- Diff(x, hosts, rows) ensures SoundChange(x, t, tenant, ByHost(hosts), c) {
      var i :| 0 <= i < |hosts| && p.changes[i] == c;
      ByHostAt(hosts, i);
      ClassifyGrounded(x, rows, hosts, i);
      ChangeIsSound(x, t, tenant, hosts[i], rows, c, ByHost(hosts));
    }
  }

  lemma ChangeIsSound(x: TextOps, t: Table<Asset>, tenant: string, h: Host, rows: Rows, c: Change, hosts: Hosts)
    requires Lists(rows, t, tenant) && Grounded(x, rows, c, h) && c.host == h.id && c.action != Excluded
    requires h.id != "" && HostOf(hosts, h.id) == h
    ensures SoundChange(x, t, tenant, hosts, c)
  {
    hide Lists, Synced;
    assert h.id in hosts;
    if c.action != Action.Create {
      var r :| r in rows && r.id == c.asset && (c.action == Unchanged ==> Synced(x, r.body, h));
      ListedRow(rows, t, tenant, r);
    }
  }

  // ---- the next comparison

  lemma PlacedAt(t: Table<Asset>, changes: seq<Change>, at: map<string, string>, c: Change)
    requires Placed(t, changes, at) && c in changes && c.action != Action.Create
    ensures c.asset in at.Values
  {
    assert at[c.host] == c.asset;
  }

  lemma ClaimedChange(x: TextOps, hosts: seq<Host>, rows: Rows, y: string) returns (c: Change)
    requires y in Classify(x, IndexOf(x, rows), hosts).claimed
    ensures c in Diff(x, hosts, rows) && c.action != Action.Create && c.asset == y
  {
    ClassifyShape(x, rows, hosts);
    DiffMembers(x, hosts, rows);
    hide Classify, Diff, IndexOf;
    var p := Classify(x, IndexOf(x, rows), hosts);
    var i :| 0 <= i < |p.changes| && p.changes[i].action != Action.Create && p.changes[i].asset == y;
    c := p.changes[i];
  }

  /** A row tagged with a host's id that was there before is the asset of some host now. */
  lemma TaggedIsPlaced(x: TextOps, t: Table<Asset>, tenant: string, hosts: seq<Host>, rows: Rows, at: map<string,
                       string>, k: nat, s: Row<Asset>)
    requires Lists(rows, t, tenant) && HostsApart(hosts) && TagsApart(rows, hosts) && k < |hosts|
    requires Placed(t, Diff(x, hosts, rows), at)
    requires Has(t, tenant, s.id) && t[s.id] == s && HOST_KEY(s) == hosts[k].id
    ensures s.id in at.Values
  {
    hide Classify, Diff, Lists, TagsApart, IndexOf, Placed;
    ListedRow(rows, t, tenant, s);
    TaggedIsClaimed(x, rows, hosts, hosts, s, k);
    var c := ClaimedChange(x, hosts, rows, s.id);
    PlacedAt(t, Diff(x, hosts, rows), at, c);
  }

  lemma InStepTag(x: TextOps, tenant: string, hosts: Hosts, r: Run, g: string)
    requires InStep(x, tenant, hosts, r, g)
    ensures HOST_KEY(r.table[r.at[g]]) == g
  {
    SyncedTag(x, r.table[r.at[g]].body, hosts[g]);
    hide Synced;
  }

  /** Only the host's own asset carries its tag. */
  lemma TagIsOwn(x: TextOps, t: Table<Asset>, tenant: string, hosts: seq<Host>, rows: Rows, r: Run, k: nat,
                 s: Row<Asset>)
    requires Lists(rows, t, tenant) && HostsApart(hosts) && TagsApart(rows, hosts) && k < |hosts|
    requires Settled(x, t, tenant, ByHost(hosts), Diff(x, hosts, rows), r)
    requires Has(r.table, tenant, s.id) && r.table[s.id] == s && HOST_KEY(s) == hosts[k].id
    ensures hosts[k].id in r.at && s.id == r.at[hosts[k].id]
  {
    hide Diff, Lists, TagsApart, Placed, ByHost, InStep, HostsApart;
    if s.id !in r.at.Values {
      TaggedIsPlaced(x, t, tenant, hosts, rows, r.at, k, s);
    }
    var g :| g in r.at && r.at[g] == s.id;
    InStepTag(x, tenant, ByHost(hosts), r, g);
  }

  lemma HostIsPlaced(x: TextOps, t: Table<Asset>, tenant: string, hosts: seq<Host>, rows: Rows, r: Run, k: nat)
    requires HostsApart(hosts) && k < |hosts|
    requires Settled(x, t, tenant, ByHost(hosts), Diff(x, hosts, rows), r)
    ensures hosts[k].id in r.at && Has(r.table, tenant, r.at[hosts[k].id])
    ensures Synced(x, r.table[r.at[hosts[k].id]].body, hosts[k])
  {
    ClassifyShape(x, rows, hosts);
    var p := Classify(x, IndexOf(x, rows), hosts);
    SortMembers(p.changes);
    hide Classify, Sort, Synced;
    assert p.changes[k] in Diff(x, hosts, rows);
    ByHostAt(hosts, k);
    assert InStep(x, tenant, ByHost(hosts), r, hosts[k].id);
  }

  /** In the next comparison a host finds its own asset. */
  lemma NextMatch(x: TextOps, t: Table<Asset>, tenant: string, hosts: seq<Host>, rows: Rows, r: Run, rows': Rows,
                  k: nat)
    requires Lists(rows, t, tenant) && HostsApart(hosts) && TagsApart(rows, hosts) && k < |hosts|
    requires Settled(x, t, tenant, ByHost(hosts), Diff(x, hosts, rows), r)
    requires Lists(rows', r.table, tenant) && Filed(r.table)
    ensures hosts[k].id in r.at && Has(r.table, tenant, r.at[hosts[k].id])
    ensures Match(x, IndexOf(x, rows'), hosts[k]) == Some(r.table[r.at[hosts[k].id]])
    ensures Synced(x, r.table[r.at[hosts[k].id]].body, hosts[k])
  {
    HostIsPlaced(x, t, tenant, hosts, rows, r, k);
    var h := hosts[k];
    var own := r.table[r.at[h.id]];
    ListedRow(rows', r.table, tenant, own);
    SyncedTag(x, own.body, h);
    IndexAgrees(rows', HOST_KEY, h.id);
    FindIsIn(rows', HOST_KEY, h.id);
    hide IndexBy, Find, Lists, Settled, TagsApart, Synced;
    var f := Find(rows', HOST_KEY, h.id);
    assert f.Some?;
    ListedRow(rows', r.table, tenant, f.value);
    TagIsOwn(x, t, tenant, hosts, rows, r, k, f.value);
  }

  /** When every host finds its own asset in step, all is unchanged. */
  lemma {:induction false} AllUnchanged(x: TextOps, ix: Index, hosts: seq<Host>, at: map<string, string>)
    requires HostsApart(hosts) && (forall g <- at, h <- at :: at[g] == at[h] ==> g == h)
    requires forall k :: 0 <= k < |hosts| ==>
      hosts[k].id in at && Match(x, ix, hosts[k]).Some? && Match(x, ix, hosts[k]).value.id == at[hosts[k].id]
      && Synced(x, Match(x, ix, hosts[k]).value.body, hosts[k])
    ensures var p := Classify(x, ix, hosts);
            && (forall c <- p.changes :: c.action == Unchanged)
            && (forall y <- p.claimed :: exists k :: 0 <= k < |hosts| && y == at[hosts[k].id])
  {
    hide Match, DesiredOf, DiffOne;
    if hosts != [] {
      var n := |hosts| - 1;
      AllUnchanged(x, ix, hosts[..n], at);
      var p := Classify(x, ix, hosts[..n]);
      forall y <- p.claimed ensures y != at[hosts[n].id] {
        var k :| 0 <= k < n && y == at[hosts[..n][k].id];
        assert hosts[k].id != hosts[n].id;
      }
      var q := Classify(x, ix, hosts);
      forall y <- q.claimed ensures exists k :: 0 <= k < |hosts| && y == at[hosts[k].id] {
        if y in p.claimed {
          var k :| 0 <= k < n && y == at[hosts[..n][k].id];
          assert y == at[hosts[k].id];
        }
      }
    }
  }

  lemma {:induction false} NothingApplied(x: TextOps, t: Table<Asset>, changes: seq<Change>, hosts: Hosts,
                                          tenant: string, o: Options, w: World)
    requires forall c <- changes :: c.action == Unchanged
    ensures var r := ApplyAll(x, t, changes, hosts, tenant, o, w);
            r.table == t && r.created == 0 && r.updated == 0 && r.errors == 0
  {
    hide CreateOne, UpdateOne, DesiredOf;
    if changes != [] {
      var n := |changes| - 1;
      assert changes[n] in changes;
      NothingApplied(x, t, changes[..n], hosts, tenant, o, w);
    }
  }

  ghost predicate Filed(t: Table<Asset>) { forall y <- t :: t[y].id == y }

  lemma CreateKeepsFiled(r: Run, c: Change, d: Desired, tenant: string, w: World, i: nat)
    requires Filed(r.table)
    ensures Filed(CreateOne(r, c, d, tenant, w, i).table)
  {
    if TryCreate(r.table, w.mint(i), tenant, d, w, i, 0).err == OK {
      TryCreateAdds(r.table, w.mint(i), tenant, d, w, i, 0);
    }
    hide TryCreate, LastTag;
  }

  lemma UpdateKeepsFiled(r: Run, c: Change, d: Desired, tenant: string, w: World, i: nat)
    requires Filed(r.table)
    ensures Filed(UpdateOne(r, c, d, tenant, w, i).table)
  {
    hide ApplyDesired, Taken;
  }

  lemma OneKeepsFiled(x: TextOps, r: Run, c: Change, hosts: Hosts, tenant: string, o: Options, w: World, i: nat)
    requires Filed(r.table)
    ensures Filed(ApplyOne(x, r, c, hosts, tenant, o, w, i).table)
  {
    hide Filed, CreateOne, UpdateOne, DesiredOf;
    CreateKeepsFiled(r, c, DesiredOf(x, HostOf(hosts, c.host)), tenant, w, i);
    UpdateKeepsFiled(r, c, DesiredOf(x, HostOf(hosts, c.host)), tenant, w, i);
  }

  /** Rows stay filed under their ids. */
  lemma {:induction false} RunKeepsFiled(x: TextOps, t: Table<Asset>, changes: seq<Change>, hosts: Hosts,
                                         tenant: string, o: Options, w: World)
    requires Filed(t)
    ensures Filed(ApplyAll(x, t, changes, hosts, tenant, o, w).table)
  {
    hide ApplyOne, Filed;
    if changes != [] {
      var n := |changes| - 1;
      RunKeepsFiled(x, t, changes[..n], hosts, tenant, o, w);
      OneKeepsFiled(x, ApplyAll(x, t, changes[..n], hosts, tenant, o, w), changes[n], hosts, tenant, o, w, n);
    }
  }

  /** Sync convergence: a run without errors over hosts with distinct ids leaves a
      store in which the next comparison, over any listing, is entirely
      unchanged, so that a second run writes nothing. */
  lemma SyncConverges(x: TextOps, t: Table<Asset>, tenant: string, hosts: seq<Host>, rows: Rows, w: World, rows': Rows,
                      w': World)
    requires Keyed(t) && Lists(rows, t, tenant) && HostsApart(hosts) && TagsApart(rows, hosts)
    requires ApplyAll(x, t, Diff(x, hosts, rows), ByHost(hosts), tenant, WHOLE, w).errors == 0
    requires Lists(rows', ApplyAll(x, t, Diff(x, hosts, rows), ByHost(hosts), tenant, WHOLE, w).table, tenant)
    ensures forall c <- Diff(x, hosts, rows') :: c.action == Unchanged
    ensures var first := ApplyAll(x, t, Diff(x, hosts, rows), ByHost(hosts), tenant, WHOLE, w);
            var second := ApplyAll(x, first.table, Diff(x, hosts, rows'), ByHost(hosts), tenant, WHOLE, w');
            second.table == first.table && second.created == 0 && second.updated == 0 && second.errors == 0
  {
    var changes := Diff(x, hosts, rows);
    var r := ApplyAll(x, t, changes, ByHost(hosts), tenant, WHOLE, w);
    PlanIsSound(x, t, tenant, hosts, rows);
    RunSettles(x, t, tenant, ByHost(hosts), changes, w);
    RunKeepsFiled(x, t, changes, ByHost(hosts), tenant, WHOLE, w);
    hide ApplyAll, Diff, Lists, TagsApart, Synced, Match, IndexOf, Sound, InStep;
    forall k: nat | k < |hosts|
      ensures hosts[k].id in r.at && Match(x, IndexOf(x, rows'), hosts[k]).Some?
           && Match(x, IndexOf(x, rows'), hosts[k]).value.id == r.at[hosts[k].id]
           && Synced(x, Match(x, IndexOf(x, rows'), hosts[k]).value.body, hosts[k])
    {
      NextMatch(x, t, tenant, hosts, rows, r, rows', k);
    }
    AllUnchanged(x, IndexOf(x, rows'), hosts, r.at);
    DiffMembers(x, hosts, rows');
    NothingApplied(x, r.table, Diff(x, hosts, rows'), ByHost(hosts), tenant, WHOLE, w');
  }

  lemma DiffMembers(x: TextOps, hosts: seq<Host>, rows: Rows)
    ensures forall c :: c in Diff(x, hosts, rows) <==> c in Classify(x, IndexOf(x, rows), hosts).changes
  {
    SortMembers(Classify(x, IndexOf(x, rows), hosts).changes);
  }
}
