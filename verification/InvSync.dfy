/** Inventory reconciliation: which asset a host corresponds to, what differs, and
    the writes that make the next comparison find nothing. */
module InvSync {
  import opened Optional
  import opened Store
  import Text
  import Seqs

  /** Trimming and lower-casing; nothing is asked of them. */
  datatype TextOps = TextOps(trim: string -> string, lower: string -> string)

  datatype Host = Host(id: string, hostname: string, serial: string, manufacturer: string, model: string,
                       osName: string, osVersion: string, osArch: string, status: string)

  const NO_HOST := Host("", "", "", "", "", "", "", "", "")

  const TAG_HOST := "inventory_host_id"
  const TAG_MANUFACTURER := "manufacturer"
  const TAG_OS_NAME := "os_name"
  const TAG_OS_VERSION := "os_version"
  const TAG_OS_ARCH := "os_arch"

  type Tags = map<string, string>

  function TagOf(tags: Tags, k: string): string { if k in tags then tags[k] else "" }

  function Put(tags: Tags, k: string, v: string): Tags { if v == "" then tags else tags[k := v] }

  // ---- the projection of a host

  datatype Desired = Desired(name: string, serial: string, model: string, tags: Tags)

  function NameOf(x: TextOps, h: Host): string {
    if x.trim(h.hostname) != "" then x.trim(h.hostname)
    else if x.trim(h.serial) != "" then x.trim(h.serial)
    else h.id
  }

  function DesiredTags(x: TextOps, h: Host): (tags: Tags)
    ensures forall k <- tags :: tags[k] != ""
    ensures TagOf(tags, TAG_HOST) == h.id
  {
    var tags := Put(map[], TAG_HOST, h.id);
    assert TAG_MANUFACTURER[0] != TAG_HOST[0] && TAG_OS_NAME[0] != TAG_HOST[0];
    assert TAG_OS_VERSION[0] != TAG_HOST[0] && TAG_OS_ARCH[0] != TAG_HOST[0];
    var tags := Put(tags, TAG_MANUFACTURER, x.trim(h.manufacturer));
    var tags := Put(tags, TAG_OS_NAME, x.trim(h.osName));
    var tags := Put(tags, TAG_OS_VERSION, x.trim(h.osVersion));
    Put(tags, TAG_OS_ARCH, x.trim(h.osArch))
  }

  function DesiredOf(x: TextOps, h: Host): (d: Desired)
    ensures forall k <- d.tags :: d.tags[k] != ""
    ensures TagOf(d.tags, TAG_HOST) == h.id
  {
    Desired(NameOf(x, h), x.trim(h.serial), x.trim(h.model), DesiredTags(x, h))
  }

  // ---- comparing and applying

  datatype Differs = Differs(was: string, becomes: string)

  /** The fields that differ: name, serial, model and tags. */
  datatype Delta = Delta(name: Option<Differs>, serial: Option<Differs>, model: Option<Differs>, tags: map<string,
                         Differs>)

  const NO_DELTA := Delta(None, None, None, map[])

  function DiffOne(a: Asset, d: Desired): Delta {
    Delta(if a.name != d.name then Some(Differs(a.name, d.name)) else None,
          if a.serial != d.serial && d.serial != "" then Some(Differs(a.serial, d.serial)) else None,
          if a.model != d.model && d.model != "" then Some(Differs(a.model, d.model)) else None,
          map k | k in d.tags && TagOf(a.tags, k) != d.tags[k] :: Differs(TagOf(a.tags, k), d.tags[k]))
  }

  function ApplyDesired(a: Asset, d: Desired): Asset {
    a.(name := d.name,
       serial := if d.serial != "" then d.serial else a.serial,
       model := if d.model != "" then d.model else a.model,
       tags := a.tags + d.tags)
  }

  /** The comparison finds exactly what applying would change. */
  lemma DiffIsWhatApplyChanges(a: Asset, d: Desired)
    requires forall k <- d.tags :: d.tags[k] != ""
    ensures DiffOne(a, d) == NO_DELTA <==> ApplyDesired(a, d) == a
    ensures DiffOne(ApplyDesired(a, d), d) == NO_DELTA
  {
    var diff := DiffOne(a, d).tags;
    if diff == map[] {
      forall k <- d.tags ensures k in a.tags && a.tags[k] == d.tags[k] {
        assert k !in diff;
      }
      assert a.tags + d.tags == a.tags;
    }
    if a.tags + d.tags == a.tags {
      forall k <- d.tags ensures TagOf(a.tags, k) == d.tags[k] {
        assert (a.tags + d.tags)[k] == d.tags[k];
      }
      assert diff == map[];
    }
  }

  /** One column before and after. */
  function Altered(was: string, becomes: string): Option<Differs> {
    if was == becomes then None else Some(Differs(was, becomes))
  }

  /** ... and it says what each column is and what applying would make of it. */
  lemma DiffTells(a: Asset, d: Desired)
    requires forall k <- d.tags :: d.tags[k] != ""
    ensures var n, delta := ApplyDesired(a, d), DiffOne(a, d);
      && delta.name == Altered(a.name, n.name) && delta.serial == Altered(a.serial, n.serial)
      && delta.model == Altered(a.model, n.model)
      && forall k ::
           (if k in delta.tags then Some(delta.tags[k]) else None) == Altered(TagOf(a.tags, k), TagOf(n.tags, k))
  {
  }

  /** The asset already has what the host asks for; its host tag is the host's id. */
  ghost predicate Synced(x: TextOps, a: Asset, h: Host) { DiffOne(a, DesiredOf(x, h)) == NO_DELTA }

  lemma SyncedTag(x: TextOps, a: Asset, h: Host)
    requires Synced(x, a, h) && h.id != ""
    ensures TagOf(a.tags, TAG_HOST) == h.id
  {
    var d := DesiredOf(x, h);
    assert TAG_HOST in d.tags && TAG_HOST !in DiffOne(a, d).tags;
  }

  // ---- the index

  type Rows = seq<Row<Asset>>
  type KeyFn = Row<Asset> -> string

  function SerialKey(x: TextOps): KeyFn { (r: Row<Asset>) => x.lower(x.trim(r.body.serial)) }
  function NameKey(x: TextOps): KeyFn { (r: Row<Asset>) => x.lower(x.trim(r.body.name)) }
  const HOST_KEY: KeyFn := (r: Row<Asset>) => TagOf(r.body.tags, TAG_HOST)

  /** The first row of the list with the key: a linear scan. */
  function Find(rows: Rows, key: KeyFn, k: string): Option<Row<Asset>> {
    if rows == [] then None
    else
      var n := |rows| - 1;
      var before := Find(rows[..n], key, k);
      if before.Some? then before else if key(rows[n]) == k then Some(rows[n]) else None
  }

  /** An index in which the first row with a key wins and the empty key is left out. */
  function IndexBy(rows: Rows, key: KeyFn): map<string, Row<Asset>> {
    if rows == [] then map[]
    else
      var n := |rows| - 1;
      var ix := IndexBy(rows[..n], key);
      if key(rows[n]) != "" && key(rows[n]) !in ix then ix[key(rows[n]) := rows[n]] else ix
  }

  function Lookup(ix: map<string, Row<Asset>>, k: string): Option<Row<Asset>> {
    if k in ix then Some(ix[k]) else None
  }

  /** The index agrees with the scan, for every key that is not empty. */
  lemma {:induction false} IndexAgrees(rows: Rows, key: KeyFn, k: string)
    requires k != ""
    ensures Lookup(IndexBy(rows, key), k) == Find(rows, key, k)
  {
    if rows != [] {
      IndexAgrees(rows[..|rows| - 1], key, k);
    }
  }

  lemma {:induction false} FindIsIn(rows: Rows, key: KeyFn, k: string)
    ensures Find(rows, key, k).Some? ==> Find(rows, key, k).value in rows && key(Find(rows, key, k).value) == k
    ensures Find(rows, key, k).None? ==> forall r <- rows :: key(r) != k
  {
    if rows != [] {
      var n := |rows| - 1;
      FindIsIn(rows[..n], key, k);
      assert rows == rows[..n] + [rows[n]];
    }
  }

  datatype Index = Index(bySerial: map<string, Row<Asset>>, byHost: map<string, Row<Asset>>, byName: map<string,
                         Row<Asset>>)

  method BuildIndex(x: TextOps, rows: Rows) returns (ix: Index)
    ensures ix == Index(IndexBy(rows, SerialKey(x)), IndexBy(rows, HOST_KEY), IndexBy(rows, NameKey(x)))
  {
    ix := Index(map[], map[], map[]);
    for i := 0 to |rows|
      invariant ix ==
        Index(IndexBy(rows[..i], SerialKey(x)), IndexBy(rows[..i], HOST_KEY), IndexBy(rows[..i], NameKey(x)))
    {
      Seqs.TakeMore(rows, i);
      var a := rows[i];
      var s := x.lower(x.trim(a.body.serial));
      if s != "" && s !in ix.bySerial {
        ix := ix.(bySerial := ix.bySerial[s := a]);
      }
      var id := TagOf(a.body.tags, TAG_HOST);
      if id != "" && id !in ix.byHost {
        ix := ix.(byHost := ix.byHost[id := a]);
      }
      var n := x.lower(x.trim(a.body.name));
      if n != "" && n !in ix.byName {
        ix := ix.(byName := ix.byName[n := a]);
      }
    }
    Seqs.TakeAll(rows);
  }

  function Search(ix: map<string, Row<Asset>>, k: string): Option<Row<Asset>> {
    if k == "" then None else Lookup(ix, k)
  }

  function Or(a: Option<Row<Asset>>, b: Option<Row<Asset>>): Option<Row<Asset>> { if a.Some? then a else b }

  /** The asset a host corresponds to: by host id, then serial, then hostname. */
  function Match(x: TextOps, ix: Index, h: Host): Option<Row<Asset>> {
    Or(Search(ix.byHost, h.id),
       Or(Search(ix.bySerial, x.lower(x.trim(h.serial))), Search(ix.byName, x.lower(x.trim(h.hostname)))))
  }

  function IndexOf(x: TextOps, rows: Rows): Index {
    Index(IndexBy(rows, SerialKey(x)), IndexBy(rows, HOST_KEY), IndexBy(rows, NameKey(x)))
  }

  lemma MatchIsIn(x: TextOps, rows: Rows, h: Host)
    ensures Match(x, IndexOf(x, rows), h).Some? ==> Match(x, IndexOf(x, rows), h).value in rows
  {
    hide IndexBy, Find;
    var s, n := x.lower(x.trim(h.serial)), x.lower(x.trim(h.hostname));
    if h.id != "" {
      IndexAgrees(rows, HOST_KEY, h.id);
      FindIsIn(rows, HOST_KEY, h.id);
    }
    if s != "" {
      IndexAgrees(rows, SerialKey(x), s);
      FindIsIn(rows, SerialKey(x), s);
    }
    if n != "" {
      IndexAgrees(rows, NameKey(x), n);
      FindIsIn(rows, NameKey(x), n);
    }
  }

  // ---- which asset it is, over the rows

  type Test = Row<Asset> -> bool

  /** The first row that passes a test. */
  ghost predicate IsFirst(rows: Rows, test: Test, r: Row<Asset>) {
    exists i | 0 <= i < |rows| && rows[i] == r :: test(r) && forall j | 0 <= j < i :: !test(rows[j])
  }

  ghost predicate NoneOf(rows: Rows, test: Test) { forall r <- rows :: !test(r) }

  function Tagged(h: Host): Test {
    (r: Row<Asset>) => h.id != "" && TAG_HOST in r.body.tags && r.body.tags[TAG_HOST] == h.id
  }

  function SameSerial(x: TextOps, h: Host): Test {
    (r: Row<Asset>) => x.lower(x.trim(h.serial)) != "" && x.lower(x.trim(r.body.serial)) == x.lower(x.trim(h.serial))
  }

  function SameName(x: TextOps, h: Host): Test {
    (r: Row<Asset>) => x.lower(x.trim(h.hostname)) != "" && x.lower(x.trim(r.body.name)) == x.lower(x.trim(h.hostname))
  }

  /** The asset of a host: the first row with its id; if there is none the first with its serial
      number; if there is none the first with its hostname; else none. */
  ghost predicate Corresponds(x: TextOps, rows: Rows, h: Host, m: Option<Row<Asset>>) {
    if !NoneOf(rows, Tagged(h)) then m.Some? && IsFirst(rows, Tagged(h), m.value)
    else if !NoneOf(rows, SameSerial(x, h)) then m.Some? && IsFirst(rows, SameSerial(x, h), m.value)
    else if !NoneOf(rows, SameName(x, h)) then m.Some? && IsFirst(rows, SameName(x, h), m.value)
    else m.None?
  }

  lemma {:induction false} FindIsFirst(rows: Rows, key: KeyFn, k: string, test: Test)
    requires forall r <- rows :: test(r) <==> key(r) == k
    ensures var f := Find(rows, key, k); if f.Some? then IsFirst(rows, test, f.value) else NoneOf(rows, test)
  {
    if rows != [] {
      var n := |rows| - 1;
      assert rows[n] in rows && forall r <- rows[..n] :: r in rows;
      FindIsFirst(rows[..n], key, k, test);
      var f := Find(rows[..n], key, k);
      if f.Some? {
        var i :| 0 <= i < n && rows[..n][i] == f.value && test(f.value) && forall j | 0 <= j < i :: !test(rows[..n][j]);
        assert rows[i] == f.value && forall j | 0 <= j < i :: rows[j] == rows[..n][j];
      } else {
        assert forall j | 0 <= j < n :: rows[j] in rows[..n] && !test(rows[j]);
      }
    }
  }

  /** A lookup finds the first row that passes the test, or there is none. */
  lemma SearchIsFirst(rows: Rows, key: KeyFn, k: string, test: Test)
    requires forall r <- rows :: test(r) <==> k != "" && key(r) == k
    ensures var f := Search(IndexBy(rows, key), k);
      if f.Some? then IsFirst(rows, test, f.value) && !NoneOf(rows, test) else NoneOf(rows, test)
  {
    if k != "" {
      IndexAgrees(rows, key, k);
      FindIsFirst(rows, key, k, test);
    }
  }

  /** The lookup by host id, then serial number, then hostname finds the asset of the host. */
  lemma MatchExactly(x: TextOps, rows: Rows, h: Host)
    ensures Corresponds(x, rows, h, Match(x, IndexOf(x, rows), h))
  {
    hide IndexBy, Search, IsFirst, NoneOf;
    SearchIsFirst(rows, HOST_KEY, h.id, Tagged(h));
    SearchIsFirst(rows, SerialKey(x), x.lower(x.trim(h.serial)), SameSerial(x, h));
    SearchIsFirst(rows, NameKey(x), x.lower(x.trim(h.hostname)), SameName(x, h));
  }

  // ---- what a host asks for

  /** The tags asked for are the host's id and its trimmed manufacturer and operating system, where not empty. */
  lemma DesiredTagsExactly(x: TextOps, h: Host, k: string, v: string)
    ensures k in DesiredOf(x, h).tags && DesiredOf(x, h).tags[k] == v <==>
      && v != ""
      && (|| (k == "inventory_host_id" && v == h.id)
          || (k == "manufacturer" && v == x.trim(h.manufacturer))
          || (k == "os_name" && v == x.trim(h.osName))
          || (k == "os_version" && v == x.trim(h.osVersion))
          || (k == "os_arch" && v == x.trim(h.osArch)))
  {
    TagsDiffer();
  }

  lemma TagsDiffer()
    ensures multiset{TAG_HOST, TAG_MANUFACTURER, TAG_OS_NAME, TAG_OS_VERSION, TAG_OS_ARCH} ==
      multiset({TAG_HOST, TAG_MANUFACTURER, TAG_OS_NAME, TAG_OS_VERSION, TAG_OS_ARCH})
  {
    assert |TAG_HOST| == 17 && |TAG_MANUFACTURER| == 12 && |TAG_OS_NAME| == 7;
    assert |TAG_OS_VERSION| == 10 && TAG_OS_ARCH[3] == 'a' && TAG_OS_NAME[3] == 'n';
  }

  /** Applying what a host asks for: the name, and the serial number, the model and the tags it
      has values for; nothing else of the asset changes. */
  lemma ApplyExactly(x: TextOps, a: Asset, h: Host, k: string)
    ensures var n := ApplyDesired(a, DesiredOf(x, h));
      && n == a.(name := n.name, serial := n.serial, model := n.model, tags := n.tags)
      && n.name == (if x.trim(h.hostname) != "" then x.trim(h.hostname)
                    else if x.trim(h.serial) != "" then x.trim(h.serial) else h.id)
      && n.serial == (if x.trim(h.serial) != "" then x.trim(h.serial) else a.serial)
      && n.model == (if x.trim(h.model) != "" then x.trim(h.model) else a.model)
      && TagOf(n.tags, k) ==
         if k in DesiredOf(x, h).tags then DesiredOf(x, h).tags[k] else TagOf(a.tags, k)
  {
    hide DesiredTags;
  }

  // ---- the plan

  datatype Action = Create | Update | Unchanged | Excluded

  datatype Change = Change(host: string, hostname: string, serial: string, action: Action, asset: string, tag: string,
                           delta: Delta, reason: string)

  datatype Plan = Plan(changes: seq<Change>, claimed: set<string>)

  function Decide(x: TextOps, ix: Index, claimed: set<string>, h: Host): Change {
    var d := DesiredOf(x, h);
    var c := Change(h.id, h.hostname, d.serial, Create, "", "", NO_DELTA, "");
    var m := Match(x, ix, h);
    if m.None? || m.value.id in claimed then c
    else
      var delta := DiffOne(m.value.body, d);
      c.(asset := m.value.id, tag := m.value.body.tag, delta := delta,
         action := if delta == NO_DELTA then Unchanged else Update)
  }

  /** Hosts are decided one after the other; an asset matched once is claimed, and
      a later host that matches it creates a new one. */
  function Classify(x: TextOps, ix: Index, hosts: seq<Host>): Plan {
    if hosts == [] then Plan([], {})
    else
      var n := |hosts| - 1;
      var p := Classify(x, ix, hosts[..n]);
      var c := Decide(x, ix, p.claimed, hosts[n]);
      Plan(p.changes + [c], if c.action == Create then p.claimed else p.claimed + {c.asset})
  }

  /** An earlier host has taken the asset. */
  ghost predicate Claimed(changes: seq<Change>, i: nat, id: string) {
    exists j | 0 <= j < i && j < |changes| :: changes[j].action != Create && changes[j].asset == id
  }

  /** The change of a host: it names the asset of the host, unless there is none or an earlier host
      has taken it; it is unchanged when applying it would change nothing. */
  ghost predicate Decided(x: TextOps, rows: Rows, hosts: seq<Host>, changes: seq<Change>, i: nat)
    requires i < |hosts| && i < |changes|
  {
    var h, c := hosts[i], changes[i];
    && c.host == h.id && c.hostname == h.hostname && c.serial == x.trim(h.serial) && c.action != Excluded
    && exists m | Corresponds(x, rows, h, m) :: Names(x, h, c, m, m.Some? && Claimed(changes, i, m.value.id))
  }

  ghost predicate Names(x: TextOps, h: Host, c: Change, m: Option<Row<Asset>>, taken: bool) {
    if m.None? || taken then c.action == Create
    else
      && c.asset == m.value.id && c.tag == m.value.body.tag && c.delta == DiffOne(m.value.body, DesiredOf(x, h))
      && c.action == if ApplyDesired(m.value.body, DesiredOf(x, h)) == m.value.body then Unchanged else Update
  }

  ghost predicate Claims(p: Plan) {
    forall id :: id in p.claimed <==> Claimed(p.changes, |p.changes|, id)
  }

  lemma ClaimsMore(p: Plan, c: Change)
    requires Claims(p)
    ensures Claims(Plan(p.changes + [c], if c.action == Create then p.claimed else p.claimed + {c.asset}))
  {
    var q := Plan(p.changes + [c], if c.action == Create then p.claimed else p.claimed + {c.asset});
    forall id ensures id in q.claimed <==> Claimed(q.changes, |q.changes|, id) {
      if id in p.claimed {
        var j :| 0 <= j < |p.changes| && p.changes[j].action != Create && p.changes[j].asset == id;
        assert q.changes[j] == p.changes[j];
      } else if id in q.claimed {
        assert q.changes[|p.changes|] == c;
      }
    }
  }

  lemma DecidedStays(x: TextOps, rows: Rows, hosts: seq<Host>, changes: seq<Change>, c: Change, i: nat)
    requires i < |changes| == |hosts| - 1 && Decided(x, rows, hosts[..|hosts| - 1], changes, i)
    ensures Decided(x, rows, hosts, changes + [c], i)
  {
    var n := |hosts| - 1;
    forall id ensures Claimed(changes + [c], i, id) == Claimed(changes, i, id) {
      if j :| 0 <= j < i && changes[j].action != Create && changes[j].asset == id {
        assert (changes + [c])[j] == changes[j];
      }
    }
    hide Corresponds, Claimed, Names;
  }

  lemma DecideNames(x: TextOps, rows: Rows, h: Host, claimed: set<string>)
    ensures var m, c := Match(x, IndexOf(x, rows), h), Decide(x, IndexOf(x, rows), claimed, h);
      && c.host == h.id && c.hostname == h.hostname && c.serial == x.trim(h.serial) && c.action != Excluded
      && Names(x, h, c, m, m.Some? && m.value.id in claimed)
  {
    var m := Match(x, IndexOf(x, rows), h);
    if m.Some? { DiffIsWhatApplyChanges(m.value.body, DesiredOf(x, h)); }
    hide Match, IndexOf, DiffOne, DesiredTags, NameOf, ApplyDesired;
  }

  lemma DecideDecides(x: TextOps, rows: Rows, hosts: seq<Host>, p: Plan)
    requires hosts != [] && |p.changes| == |hosts| - 1 && Claims(p)
    ensures var n := |hosts| - 1;
      Decided(x, rows, hosts, p.changes + [Decide(x, IndexOf(x, rows), p.claimed, hosts[n])], n)
  {
    var n := |hosts| - 1;
    var h := hosts[n];
    var m, c := Match(x, IndexOf(x, rows), h), Decide(x, IndexOf(x, rows), p.claimed, h);
    MatchExactly(x, rows, h);
    DecideNames(x, rows, h, p.claimed);
    hide Corresponds, Match, IndexOf, Decide, Names;
    assert m.Some? ==> (Claimed(p.changes + [c], n, m.value.id) <==> m.value.id in p.claimed) by {
      if m.Some? {
        assert m.value.id in p.claimed <==> Claimed(p.changes, n, m.value.id);
        assert forall j | 0 <= j < n :: (p.changes + [c])[j] == p.changes[j];
      }
    }
  }

  ghost predicate AllDecided(x: TextOps, rows: Rows, hosts: seq<Host>, p: Plan) {
    && |p.changes| == |hosts| && Claims(p)
    && forall i | 0 <= i < |hosts| :: Decided(x, rows, hosts, p.changes, i)
  }

  lemma ClassifyOne(x: TextOps, rows: Rows, hosts: seq<Host>, p: Plan, c: Change)
    requires hosts != [] && AllDecided(x, rows, hosts[..|hosts| - 1], p)
    requires c == Decide(x, IndexOf(x, rows), p.claimed, hosts[|hosts| - 1])
    ensures AllDecided(x, rows, hosts,
                       Plan(p.changes + [c], if c.action == Create then p.claimed else p.claimed + {c.asset}))
  {
    ClaimsMore(p, c);
    DecideDecides(x, rows, hosts, p);
    hide Decide, IndexOf, Decided, Claims;
    forall i | 0 <= i < |hosts| - 1 ensures Decided(x, rows, hosts, p.changes + [c], i) {
      DecidedStays(x, rows, hosts, p.changes, c, i);
    }
  }

  lemma {:induction false} ClassifyExactly(x: TextOps, rows: Rows, hosts: seq<Host>)
    ensures AllDecided(x, rows, hosts, Classify(x, IndexOf(x, rows), hosts))
  {
    hide Decide, IndexOf;
    if hosts != [] {
      hide AllDecided;
      ClassifyExactly(x, rows, hosts[..|hosts| - 1]);
      var p := Classify(x, IndexOf(x, rows), hosts[..|hosts| - 1]);
      ClassifyOne(x, rows, hosts, p, Decide(x, IndexOf(x, rows), p.claimed, hosts[|hosts| - 1]));
    }
  }

  // ---- sorting by hostname, stably

  /** Goes in behind everything that does not come after it. */
  function Insert(s: seq<Change>, c: Change): seq<Change> {
    if s == [] then [c]
    else
      var n := |s| - 1;
      if Text.Less(c.hostname, s[n].hostname) then Insert(s[..n], c) + [s[n]] else s + [c]
  }

  function Sort(s: seq<Change>): seq<Change> {
    if s == [] then [] else Insert(Sort(s[..|s| - 1]), s[|s| - 1])
  }

  predicate SortedByName(s: seq<Change>) {
    forall i, j :: 0 <= i < j < |s| ==> Text.AtMost(s[i].hostname, s[j].hostname)
  }

  lemma LastApart(s: seq<Change>)
    requires s != []
    ensures multiset(s) == multiset(s[..|s| - 1]) + multiset{s[|s| - 1]}
  {
    assert s == s[..|s| - 1] + [s[|s| - 1]];
  }

  lemma {:induction false} InsertIn(s: seq<Change>, c: Change)
    ensures multiset(Insert(s, c)) == multiset(s) + multiset{c}
  {
    if s != [] {
      LastApart(s);
      if Text.Less(c.hostname, s[|s| - 1].hostname) {
        InsertIn(s[..|s| - 1], c);
      }
    }
  }

  lemma {:induction false} SortIn(s: seq<Change>)
    ensures multiset(Sort(s)) == multiset(s)
  {
    hide Insert;
    if s != [] {
      SortIn(s[..|s| - 1]);
      InsertIn(Sort(s[..|s| - 1]), s[|s| - 1]);
      LastApart(s);
    }
  }

  lemma {:induction false} InsertBound(s: seq<Change>, c: Change, top: Change)
    requires forall i :: 0 <= i < |s| ==> Text.AtMost(s[i].hostname, top.hostname)
    requires Text.AtMost(c.hostname, top.hostname)
    ensures forall i :: 0 <= i < |Insert(s, c)| ==> Text.AtMost(Insert(s, c)[i].hostname, top.hostname)
  {
    if s != [] && Text.Less(c.hostname, s[|s| - 1].hostname) {
      InsertBound(s[..|s| - 1], c, top);
    }
  }

  lemma {:induction false} InsertSorted(s: seq<Change>, c: Change)
    requires SortedByName(s)
    ensures SortedByName(Insert(s, c))
  {
    if s != [] {
      var n := |s| - 1;
      if Text.Less(c.hostname, s[n].hostname) {
        InsertSorted(s[..n], c);
        Text.LessIsAsymmetric(c.hostname, s[n].hostname);
        InsertBound(s[..n], c, s[n]);
      } else {
        forall i | 0 <= i < |s| ensures Text.AtMost(s[i].hostname, c.hostname) {
          if i < n {
            Text.AtMostIsTransitive(s[i].hostname, s[n].hostname, c.hostname);
          }
        }
      }
    }
  }

  /** The changes of one hostname, in order. */
  function OfName(s: seq<Change>, name: string): seq<Change> {
    if s == [] then [] else OfName(s[..|s| - 1], name) + if s[|s| - 1].hostname == name then [s[|s| - 1]] else []
  }

  lemma OfNameMore(s: seq<Change>, c: Change, name: string)
    ensures OfName(s + [c], name) == OfName(s, name) + if c.hostname == name then [c] else []
  {
    assert (s + [c])[..|s|] == s;
  }

  lemma {:induction false} InsertStable(s: seq<Change>, c: Change, name: string)
    ensures OfName(Insert(s, c), name) == OfName(s, name) + if c.hostname == name then [c] else []
  {
    if s == [] {
      assert [c][..0] == [];
    } else {
      var front, last := s[..|s| - 1], s[|s| - 1];
      assert s == front + [last];
      if Text.Less(c.hostname, last.hostname) {
        InsertStable(front, c, name);
        Text.LessIsAsymmetric(c.hostname, last.hostname);
        assert Insert(s, c) == Insert(front, c) + [last];
        hide Insert, OfName;
        OfNameMore(Insert(front, c), last, name);
        OfNameMore(front, last, name);
      } else {
        OfNameMore(s, c, name);
      }
    }
  }

  /** The sort orders by hostname, keeps every change once, and keeps the order of
      changes with the same hostname. */
  lemma {:induction false} SortIsStableSort(s: seq<Change>, name: string)
    ensures SortedByName(Sort(s)) && multiset(Sort(s)) == multiset(s) && OfName(Sort(s), name) == OfName(s, name)
  {
    SortIn(s);
    if s != [] {
      var n := |s| - 1;
      SortIsStableSort(s[..n], name);
      InsertSorted(Sort(s[..n]), s[n]);
      InsertStable(Sort(s[..n]), s[n], name);
    }
  }

  function Diff(x: TextOps, hosts: seq<Host>, rows: Rows): seq<Change> {
    Sort(Classify(x, IndexOf(x, rows), hosts).changes)
  }

  /** The comparison has one change for each host, decided in the order of the hosts, sorted by
      hostname. */
  lemma DiffExactly(x: TextOps, rows: Rows, hosts: seq<Host>) returns (changes: seq<Change>)
    ensures |changes| == |hosts| && forall i | 0 <= i < |hosts| :: Decided(x, rows, hosts, changes, i)
    ensures multiset(Diff(x, hosts, rows)) == multiset(changes) && SortedByName(Diff(x, hosts, rows))
  {
    changes := Classify(x, IndexOf(x, rows), hosts).changes;
    ClassifyExactly(x, rows, hosts);
    SortIsStableSort(changes, "");
    hide Classify, Decided, Sort;
  }

  method DiffHosts(x: TextOps, hosts: seq<Host>, rows: Rows) returns (out: seq<Change>)
    ensures out == Diff(x, hosts, rows)
  {
    var ix := BuildIndex(x, rows);
    var claimed: set<string> := {};
    var plan: seq<Change> := [];
    for i := 0 to |hosts|
      invariant Plan(plan, claimed) == Classify(x, ix, hosts[..i])
    {
      Seqs.TakeMore(hosts, i);
      var c := Decide(x, ix, claimed, hosts[i]);
      if c.action != Create {
        claimed := claimed + {c.asset};
      }
      plan := plan + [c];
    }
    Seqs.TakeAll(hosts);
    out := [];
    for i := 0 to |plan|
      invariant out == Sort(plan[..i])
    {
      Seqs.TakeMore(plan, i);
      out := Insert(out, plan[i]);
    }
    Seqs.TakeAll(plan);
  }
}
