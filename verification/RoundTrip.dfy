/** Export, and the promise of the backup: what was exported can be restored. */
module RoundTrip {
  import opened Store
  import opened Archive
  import opened Ordering
  import opened Wipe
  import opened Loading
  import opened Attaching
  import opened Importing
  import opened Restoring

  // ---- export

  function Scrubbed<B>(t: Table<B>, want: B -> B): Table<B> {
    map x | x in t :: t[x].(body := want(t[x].body))
  }

  /** Assignments are listed asset by asset, links policy by policy and documents
      owner by owner, so those of a missing owner are not exported. */
  function WithAsset(db: Db, tenant: string): Table<Assignment> {
    map x | x in db.assignments && Has(db.assets, tenant, db.assignments[x].body.asset) :: db.assignments[x]
  }

  function WithPolicy(db: Db, tenant: string): Table<Link> {
    map x | x in db.links && Has(db.policies, tenant, db.links[x].body.policy) :: db.links[x]
  }

  function WithOwner(db: Db, tenant: string): Table<Document> {
    map x | x in db.documents && Owned(db, tenant, db.documents[x].body) :: db.documents[x]
  }

  /** A backup of the tenant: every record once, contacts dropped. */
  ghost predicate IsExport(b: Backup, db: Db, tenant: string) {
    && b.version == SCHEMA_VERSION && b.tenant == tenant
    && Lists(b.suppliers, Scrubbed(db.suppliers, SCRUB_SUPPLIER), tenant)
    && Lists(b.locations, Scrubbed(db.locations, SCRUB_LOCATION), tenant)
    && Lists(b.categories, db.categories, tenant)
    && Lists(b.assets, db.assets, tenant)
    && Lists(b.assignments, WithAsset(db, tenant), tenant)
    && Lists(b.consumables, db.consumables, tenant)
    && Lists(b.licenses, db.licenses, tenant)
    && Lists(b.policies, db.policies, tenant)
    && Lists(b.links, WithPolicy(db, tenant), tenant)
    && Lists(b.documents, WithOwner(db, tenant), tenant)
  }

  method ScrubRows<B>(rows: seq<Row<B>>, want: B -> B, ghost t: Table<B>,
                      ghost tenant: string) returns (out: seq<Row<B>>)
    requires Lists(rows, t, tenant)
    ensures Lists(out, Scrubbed(t, want), tenant)
  {
    out := [];
    for i := 0 to |rows|
      invariant |out| == i && Distinct(out) && IdSet(out) == IdSet(rows[..i])
      invariant forall r <- out :: r.id in t && r == t[r.id].(body := want(t[r.id].body))
    {
      assert rows[i] in rows;
      AppendNext(rows, i);
      hide Distinct, IdSet;
      var r := rows[i].(body := want(rows[i].body));
      Append(out, r);
      out := out + [r];
    }
    assert rows[..|rows|] == rows;
    assert IdsOf(Scrubbed(t, want), tenant) == IdsOf(t, tenant);
  }

  lemma AppendNext<B>(rows: seq<Row<B>>, i: nat)
    requires Distinct(rows) && i < |rows|
    ensures IdSet(rows[..i + 1]) == IdSet(rows[..i]) + {rows[i].id} && rows[i].id !in IdSet(rows[..i])
  {
    assert rows[..i + 1] == rows[..i] + [rows[i]];
    Append(rows[..i], rows[i]);
    hide Distinct, IdSet;
    InIdSet(rows[..i], rows[i].id);
    if k :| 0 <= k < i && rows[..i][k].id == rows[i].id {
      DistinctApart(rows, k, i);
    }
  }

  function OwnedBy<B>(t: Table<B>, tenant: string, owner: B -> string, owners: set<string>): set<string> {
    set x | x in t && t[x].tenant == tenant && owner(t[x].body) in owners
  }

  lemma {:induction false} Join<B>(a: seq<Row<B>>, b: seq<Row<B>>)
    ensures IdSet(a + b) == IdSet(a) + IdSet(b)
    ensures Distinct(a) && Distinct(b) && IdSet(a) !! IdSet(b) ==> Distinct(a + b)
  {
    if b == [] {
      assert a + b == a;
    } else {
      var n := |b| - 1;
      Join(a, b[..n]);
      assert (a + b)[..|a + b| - 1] == a + b[..n];
    }
  }

  method ListOf<B>(t: Table<B>, tenant: string, owner: B -> string, id: string) returns (rows: seq<Row<B>>)
    requires Keyed(t)
    ensures Distinct(rows) && IdSet(rows) == OwnedBy(t, tenant, owner, {id})
    ensures forall r <- rows :: r.id in t && r == t[r.id]
  {
    var mine := map x | x in t && owner(t[x].body) == id :: t[x];
    rows := ListRows(mine, tenant);
    assert IdsOf(mine, tenant) == OwnedBy(t, tenant, owner, {id});
  }

  /** Rows of a table found owner by owner, for a list of distinct owners. */
  method ListByOwner<B>(t: Table<B>, tenant: string, owner: B -> string, owners: seq<string>) returns (out: seq<Row<B>>)
    requires Keyed(t) && NoDup(owners)
    ensures Distinct(out) && IdSet(out) == OwnedBy(t, tenant, owner, SetOf(owners))
    ensures forall r <- out :: r.id in t && r == t[r.id]
  {
    hide Distinct, IdSet;
    out := [];
    assert Distinct(out) && IdSet(out) == {} by { Empty<B>(); }
    for i := 0 to |owners|
      invariant Distinct(out) && forall r <- out :: r.id in t && r == t[r.id]
      invariant IdSet(out) == OwnedBy(t, tenant, owner, SetOf(owners[..i]))
    {
      var rows := ListOf(t, tenant, owner, owners[i]);
      NextOwner(t, tenant, owner, owners, i);
      hide OwnedBy, SetOf;
      Join(out, rows);
      out := out + rows;
    }
    assert owners[..|owners|] == owners;
  }

  lemma Empty<B>()
    ensures Distinct<B>([]) && IdSet<B>([]) == {}
  {}

  lemma NextOwner<B>(t: Table<B>, tenant: string, owner: B -> string, owners: seq<string>, i: nat)
    requires NoDup(owners) && i < |owners|
    ensures OwnedBy(t, tenant, owner, SetOf(owners[..i + 1])) ==
            OwnedBy(t, tenant, owner, SetOf(owners[..i])) + OwnedBy(t, tenant, owner, {owners[i]})
    ensures OwnedBy(t, tenant, owner, SetOf(owners[..i])) !! OwnedBy(t, tenant, owner, {owners[i]})
  {
    assert owners[..i + 1] == owners[..i] + [owners[i]];
    assert owners[i] !in owners[..i];
  }

  const ASSIGNED_ASSET: Assignment -> string := (a: Assignment) => a.asset
  const LINKED_POLICY: Link -> string := (l: Link) => l.policy
  const DOCUMENT_OWNER: Document -> string := (d: Document) => d.entity

  function OfType(t: Table<Document>, kind: string): Table<Document> {
    map x | x in t && t[x].body.entityType == kind :: t[x]
  }

  /** The documents of one kind of owner. */
  method DocumentsOf<B>(db: Db, tenant: string, kind: string, owners: seq<Row<B>>,
                        ghost t: Table<B>) returns (out: seq<Row<Document>>)
    requires Keyed(db.documents) && Lists(owners, t, tenant)
    ensures Distinct(out) && forall r <- out :: r.id in db.documents && r == db.documents[r.id]
    ensures IdSet(out) == DocumentIds(db, tenant, kind, IdsOf(t, tenant))
  {
    ListedIds(owners, t, tenant);
    hide Lists, NoDup, Distinct, IdSet, SetOf, IdSeq;
    out := ListByOwner(OfType(db.documents, kind), tenant, DOCUMENT_OWNER, IdSeq(owners));
    assert OwnedBy(OfType(db.documents, kind), tenant, DOCUMENT_OWNER, IdsOf(t, tenant)) ==
      DocumentIds(db, tenant, kind, IdsOf(t, tenant));
  }

  function DocumentIds(db: Db, tenant: string, kind: string, owners: set<string>): set<string> {
    set x | x in db.documents && db.documents[x].tenant == tenant && db.documents[x].body.entityType == kind
            && db.documents[x].body.entity in owners
  }

  /** Documents of the assets, then of the consumables, then of the licenses. */
  method ExportDocuments(db: Db, tenant: string, assets: seq<Row<Asset>>, consumables: seq<Row<Consumable>>,
                         licenses: seq<Row<License>>)
    returns (out: seq<Row<Document>>)
    requires Keyed(db.documents)
    requires Lists(assets, db.assets, tenant) && Lists(consumables, db.consumables, tenant)
    requires Lists(licenses, db.licenses, tenant)
    ensures Lists(out, WithOwner(db, tenant), tenant)
  {
    hide Lists, NoDup, Distinct, IdSet, IdsOf, DocumentIds, Owned;
    var a := DocumentsOf(db, tenant, ENTITY_ASSET, assets, db.assets);
    var c := DocumentsOf(db, tenant, ENTITY_CONSUMABLE, consumables, db.consumables);
    var l := DocumentsOf(db, tenant, ENTITY_LICENSE, licenses, db.licenses);
    OwnersApart(db, tenant, IdsOf(db.assets, tenant), IdsOf(db.consumables, tenant), IdsOf(db.licenses, tenant));
    OwnersTogether(db, tenant);
    out := a + c + l;
    Join(a, c);
    Join(a + c, l);
    FromIds(out, db.documents, WithOwner(db, tenant), tenant);
  }

  lemma KindsDiffer()
    ensures ENTITY_ASSET != ENTITY_CONSUMABLE && ENTITY_ASSET != ENTITY_LICENSE && ENTITY_CONSUMABLE != ENTITY_LICENSE
  {
    assert ENTITY_ASSET[0] != ENTITY_CONSUMABLE[0] && ENTITY_ASSET[0] != ENTITY_LICENSE[0];
    assert ENTITY_CONSUMABLE[0] != ENTITY_LICENSE[0];
  }

  lemma OwnersApart(db: Db, tenant: string, a: set<string>, c: set<string>, l: set<string>)
    ensures DocumentIds(db, tenant, ENTITY_ASSET, a) !! DocumentIds(db, tenant, ENTITY_CONSUMABLE, c)
    ensures DocumentIds(db, tenant, ENTITY_ASSET, a) + DocumentIds(db, tenant, ENTITY_CONSUMABLE, c) !! DocumentIds(db,
        tenant, ENTITY_LICENSE, l)
  {
    KindsDiffer();
  }

  lemma OwnersTogether(db: Db, tenant: string)
    ensures DocumentIds(db, tenant, ENTITY_ASSET, IdsOf(db.assets, tenant))
            + DocumentIds(db, tenant, ENTITY_CONSUMABLE, IdsOf(db.consumables, tenant))
            + DocumentIds(db, tenant, ENTITY_LICENSE, IdsOf(db.licenses, tenant)) ==
              IdsOf(WithOwner(db, tenant), tenant)
  {}

  /** A list drawn from a table that has the ids of a part of it lists that part. */
  lemma FromIds<B>(rows: seq<Row<B>>, t: Table<B>, part: Table<B>, tenant: string)
    requires Distinct(rows) && IdSet(rows) == IdsOf(part, tenant) && forall r <- rows :: r.id in t && r == t[r.id]
    requires forall x <- part :: x in t && part[x] == t[x]
    ensures Lists(rows, part, tenant)
  {
    forall r <- rows ensures r.id in part && r == part[r.id] {
      var i :| 0 <= i < |rows| && rows[i] == r;
      InIdSet(rows, r.id);
    }
  }

  /** Builds a backup of the tenant. */
  method Export(mem: Mem, tenant: string) returns (b: Backup)
    requires KeyedAll(mem.Contents())
    ensures IsExport(b, mem.Contents(), tenant)
  {
    ghost var db := mem.Contents();
    hide Lists, Distinct, IdSet;
    var suppliers := ListRows(mem.suppliers, tenant);
    suppliers := ScrubRows(suppliers, SCRUB_SUPPLIER, mem.suppliers, tenant);
    var locations := ListRows(mem.locations, tenant);
    locations := ScrubRows(locations, SCRUB_LOCATION, mem.locations, tenant);
    var categories := ListRows(mem.categories, tenant);
    var assets := ListRows(mem.assets, tenant);
    var consumables := ListRows(mem.consumables, tenant);
    var licenses := ListRows(mem.licenses, tenant);
    var policies := ListRows(mem.policies, tenant);
    var assignments := ExportAssignments(mem.Contents(), tenant, assets);
    var links := ExportLinks(mem.Contents(), tenant, policies);
    var documents := ExportDocuments(mem.Contents(), tenant, assets, consumables, licenses);
    hide Scrubbed, WithAsset, WithPolicy, WithOwner, Keyed;
    b := Backup(SCHEMA_VERSION, tenant, suppliers, locations, categories, assets, assignments, consumables, licenses,
                policies, links, documents);
  }

  method ExportAssignments(db: Db, tenant: string, assets: seq<Row<Asset>>) returns (out: seq<Row<Assignment>>)
    requires Keyed(db.assignments) && Lists(assets, db.assets, tenant)
    ensures Lists(out, WithAsset(db, tenant), tenant)
  {
    ListedIds(assets, db.assets, tenant);
    hide Lists, NoDup, Distinct, IdSet;
    out := ListByOwner(db.assignments, tenant, ASSIGNED_ASSET, IdSeq(assets));
    assert OwnedBy(db.assignments, tenant, ASSIGNED_ASSET, IdsOf(db.assets, tenant)) ==
      IdsOf(WithAsset(db, tenant), tenant);
    FromIds(out, db.assignments, WithAsset(db, tenant), tenant);
  }

  method ExportLinks(db: Db, tenant: string, policies: seq<Row<Policy>>) returns (out: seq<Row<Link>>)
    requires Keyed(db.links) && Lists(policies, db.policies, tenant)
    ensures Lists(out, WithPolicy(db, tenant), tenant)
  {
    ListedIds(policies, db.policies, tenant);
    hide Lists, NoDup, Distinct, IdSet;
    out := ListByOwner(db.links, tenant, LINKED_POLICY, IdSeq(policies));
    assert OwnedBy(db.links, tenant, LINKED_POLICY, IdsOf(db.policies, tenant)) ==
      IdsOf(WithPolicy(db, tenant), tenant);
    FromIds(out, db.links, WithPolicy(db, tenant), tenant);
  }

  // ---- what can be restored

  /** The tenant's rows of a table were written by the store: creation times and
      defaults are there, and no two rows hold the same unique columns. want is
      what export makes of a row, prep what import makes of that. */
  ghost predicate Storable<B>(k: Kind<B>, want: B -> B, prep: B -> B, t: Table<B>, tenant: string) {
    && Keyed(t)
    && (forall x <- t :: t[x].tenant == tenant ==>
        t[x].created != 0 && k.fill(prep(want(t[x].body))) == want(t[x].body))
    && (forall x <- t, y <- t :: t[x].tenant == tenant && t[y].tenant == tenant && x != y ==>
          !k.clash(want(t[x].body), prep(want(t[y].body))))
  }

  /** ... and so were its attachments; here the unique columns are unique over all tenants. */
  ghost predicate Attachable<B>(k: Attach<B>, t: Table<B>, tenant: string) {
    && Keyed(t)
    && (forall x <- t :: t[x].tenant == tenant ==> t[x].created != 0 && k.admit(t[x]) && k.fill(t[x].body) == t[x].body)
    && (forall x <- t, y <- t :: t[y].tenant == tenant && x != y ==> !k.clash(t[x].body, t[y].body))
  }

  const KEEP_ASSET: Asset -> Asset := (a: Asset) => a
  const KEEP_LICENSE: License -> License := (l: License) => l
  const KEEP_POLICY: Policy -> Policy := (p: Policy) => p

  /** A tenant whose state the backup can carry: unique columns unique, references
      closed, trees at most 64 deep, defaults filled in, documents under their own keys. */
  ghost predicate Restorable(db: Db, tenant: string) {
    && Attached(db, tenant)
    && Shallow(db.categories, tenant, CATEGORY_UP) && Shallow(db.locations, tenant, LOCATION_UP)
    && Storable(SUPPLIERS, SCRUB_SUPPLIER, SCRUB_SUPPLIER, db.suppliers, tenant)
    && Storable(LOCATIONS, SCRUB_LOCATION, SCRUB_LOCATION, db.locations, tenant)
    && Storable(CATEGORIES, KEEP_CATEGORY, KEEP_CATEGORY, db.categories, tenant)
    && Storable(ASSETS, KEEP_ASSET, DEFAULT_ASSET, db.assets, tenant)
    && Storable(CONSUMABLES, KEEP_CONSUMABLE, KEEP_CONSUMABLE, db.consumables, tenant)
    && Storable(LICENSES, KEEP_LICENSE, DEFAULT_LICENSE, db.licenses, tenant)
    && Storable(POLICIES, KEEP_POLICY, DEFAULT_POLICY, db.policies, tenant)
    && Attachable(ASSIGNMENTS(IdsOf(db.assets, tenant)), db.assignments, tenant)
    && Attachable(LINKS, db.links, tenant)
    && Attachable(DOCUMENTS(tenant), db.documents, tenant)
  }

  /** The same rows: others' untouched, the tenant's as exported, but for the update time. */
  ghost predicate SameRows<B>(t': Table<B>, t: Table<B>, tenant: string, want: B -> B) {
    && t'.Keys == t.Keys
    && forall x <- t :: if t[x].tenant != tenant then t'[x] == t[x]
                        else SameButUpdated(t'[x], t[x].(body := want(t[x].body)))
  }

  /** All ten collections are back, up to scrubbed contacts and update times. */
  ghost predicate Restored(db': Db, db: Db, tenant: string) {
    && SameRows(db'.suppliers, db.suppliers, tenant, SCRUB_SUPPLIER)
    && SameRows(db'.locations, db.locations, tenant, SCRUB_LOCATION)
    && SameRows(db'.categories, db.categories, tenant, KEEP_CATEGORY)
    && SameRows(db'.assets, db.assets, tenant, KEEP_ASSET)
    && SameRows(db'.consumables, db.consumables, tenant, KEEP_CONSUMABLE)
    && SameRows(db'.licenses, db.licenses, tenant, KEEP_LICENSE)
    && SameRows(db'.policies, db.policies, tenant, KEEP_POLICY)
    && db'.assignments == db.assignments && db'.links == db.links && db'.documents == db.documents
  }

  // ---- one table

  lemma ListedAt<B>(rows: seq<Row<B>>, t: Table<B>, tenant: string, i: nat)
    requires Lists(rows, t, tenant) && i < |rows|
    ensures rows[i].id in t && t[rows[i].id] == rows[i] && rows[i].tenant == tenant
  {
    assert rows[i] in rows;
    InIdSet(rows, rows[i].id);
  }

  lemma IsLoadable<B>(k: Kind<B>, want: B -> B, prep: B -> B, t: Table<B>, tenant: string, rows: seq<Row<B>>)
    requires Storable(k, want, prep, t, tenant) && Lists(rows, Scrubbed(t, want), tenant)
    ensures Loadable(k, prep, rows, tenant) && forall i :: 0 <= i < |rows| ==> rows[i].id !in Others(t, tenant)
  {
    var s := Scrubbed(t, want);
    assert Distinct(rows);
    hide Lists, Distinct;
    forall i: nat | i < |rows|
      ensures rows[i].id in t && t[rows[i].id].tenant == tenant
      ensures rows[i] == t[rows[i].id].(body := want(t[rows[i].id].body))
    {
      ListedAt(rows, s, tenant, i);
    }
    forall i, j | 0 <= i < j < |rows| ensures !k.clash(rows[i].body, prep(rows[j].body)) {
      DistinctApart(rows, i, j);
    }
  }

  lemma IsSameRows<B>(want: B -> B, t: Table<B>, tenant: string, rows: seq<Row<B>>, t': Table<B>)
    requires Keyed(t) && Lists(rows, Scrubbed(t, want), tenant) && Loaded(t', Others(t, tenant), rows)
    ensures SameRows(t', t, tenant, want)
  {
    assert IdsOf(Scrubbed(t, want), tenant) == IdsOf(t, tenant);
    assert t'.Keys == t.Keys;
    forall x <- t | t[x].tenant == tenant ensures SameButUpdated(t'[x], t[x].(body := want(t[x].body))) {
      assert x in IdSet(rows);
      InIdSet(rows, x);
      var i: nat :| i < |rows| && rows[i].id == x;
      ListedAt(rows, Scrubbed(t, want), tenant, i);
    }
    forall x <- t | t[x].tenant != tenant ensures t'[x] == t[x] {
      assert x in Others(t, tenant);
    }
  }

  /** A table whose tenant rows were wiped gets them back from the export. */
  lemma TableRestored<B>(k: Kind<B>, want: B -> B, prep: B -> B, t: Table<B>, tenant: string, rows: seq<Row<B>>,
                         overwrite: bool, env: Env)
    requires Storable(k, want, prep, t, tenant) && Lists(rows, Scrubbed(t, want), tenant) && Quiet(env)
    ensures var l := LoadRows(k, prep, Others(t, tenant), rows, tenant, overwrite, env);
            && l.err == OK && l.imported == |rows| && l.skipped == 0 && l.made == IdsOf(t, tenant)
            && SameRows(l.table, t, tenant, want)
  {
    IsLoadable(k, want, prep, t, tenant, rows);
    LoadFresh(k, prep, Others(t, tenant), rows, tenant, overwrite, env);
    IsSameRows(want, t, tenant, rows, LoadRows(k, prep, Others(t, tenant), rows, tenant, overwrite, env).table);
    assert IdsOf(Scrubbed(t, want), tenant) == IdsOf(t, tenant);
  }

  lemma ListsOrdered<B>(rows: seq<Row<B>>, up: B -> string, t: Table<B>, tenant: string)
    requires Lists(rows, t, tenant)
    ensures Lists(Order(rows, up), t, tenant)
  {
    EveryIdOnce(rows, up);
  }

  lemma NotScrubbed<B>(t: Table<B>, want: B -> B)
    requires forall x <- t :: want(t[x].body) == t[x].body
    ensures Scrubbed(t, want) == t
  {}

  /** ... and so do the attachments, exactly. */
  lemma TableReattached<B>(k: Attach<B>, t: Table<B>, tenant: string, rows: seq<Row<B>>, env: Env)
    requires Attachable(k, t, tenant) && Lists(rows, t, tenant) && Quiet(env)
    ensures var l := InsertRows(k, Others(t, tenant), rows, tenant, env);
            l.err == OK && l.imported == |rows| && l.skipped == 0 && l.table == t
  {
    IsInsertable(k, t, tenant, rows);
    InsertFresh(k, Others(t, tenant), rows, tenant, env);
    IsWhole(t, tenant, rows, InsertRows(k, Others(t, tenant), rows, tenant, env).table);
  }

  lemma IsInsertable<B>(k: Attach<B>, t: Table<B>, tenant: string, rows: seq<Row<B>>)
    requires Attachable(k, t, tenant) && Lists(rows, t, tenant)
    ensures Insertable(k, Others(t, tenant), rows, tenant)
  {
    assert Distinct(rows);
    hide Lists, Distinct;
    forall i: nat | i < |rows| ensures rows[i].id in t && t[rows[i].id] == rows[i] && rows[i].tenant == tenant {
      ListedAt(rows, t, tenant, i);
    }
    forall i, j | 0 <= i < j < |rows| ensures !k.clash(rows[i].body, rows[j].body) {
      DistinctApart(rows, i, j);
    }
  }

  lemma IsWhole<B>(t: Table<B>, tenant: string, rows: seq<Row<B>>, t': Table<B>)
    requires Keyed(t) && Lists(rows, t, tenant) && Inserted(t', Others(t, tenant), rows)
    ensures t' == t
  {
    assert t'.Keys == t.Keys;
    forall x <- t ensures t'[x] == t[x] {
      if t[x].tenant == tenant {
        assert x in IdSet(rows);
        InIdSet(rows, x);
        var i: nat :| i < |rows| && rows[i].id == x;
        ListedAt(rows, t, tenant, i);
      } else {
        assert x in Others(t, tenant);
      }
    }
  }

  // ---- the round trip

  lemma RecordsRestored(db: Db, tenant: string, b: Backup, j: Job)
    requires Restorable(db, tenant) && IsExport(b, db, tenant) && j.target == tenant && AllQuiet(j)
    ensures var p := PartsOf(OfOthers(db, tenant), b, j);
            && p.suppliers.err == OK && SameRows(p.suppliers.table, db.suppliers, tenant, SCRUB_SUPPLIER)
            && p.suppliers.skipped == 0
            && p.locations.err == OK && SameRows(p.locations.table, db.locations, tenant, SCRUB_LOCATION)
            && p.locations.skipped == 0
            && p.categories.err == OK && SameRows(p.categories.table, db.categories, tenant, KEEP_CATEGORY)
            && p.categories.skipped == 0
            && p.assets.err == OK && SameRows(p.assets.table, db.assets, tenant, KEEP_ASSET) && p.assets.skipped == 0
            && p.assets.made == IdsOf(db.assets, tenant)
  {
    assert Quiet(j.env(0)) && Quiet(j.env(1)) && Quiet(j.env(2)) && Quiet(j.env(3));
    NotScrubbed(db.categories, KEEP_CATEGORY);
    NotScrubbed(db.assets, KEEP_ASSET);
    ListsOrdered(b.locations, LOCATION_UP, Scrubbed(db.locations, SCRUB_LOCATION), tenant);
    ListsOrdered(b.categories, CATEGORY_UP, db.categories, tenant);
    hide LoadRows, InsertRows, Order, Lists, Storable, Attachable, Attached, Shallow, SameRows, Quiet, Others, IdsOf;
    hide Scrubbed;
    hide WithAsset, WithPolicy, WithOwner;
    TableRestored(SUPPLIERS, SCRUB_SUPPLIER, SCRUB_SUPPLIER, db.suppliers, tenant, b.suppliers, j.overwrite, j.env(0));
    TableRestored(LOCATIONS, SCRUB_LOCATION, SCRUB_LOCATION, db.locations, tenant, Order(b.locations, LOCATION_UP),
                  j.overwrite, j.env(1));
    TableRestored(CATEGORIES, KEEP_CATEGORY, KEEP_CATEGORY, db.categories, tenant, Order(b.categories, CATEGORY_UP),
                  j.overwrite, j.env(2));
    TableRestored(ASSETS, KEEP_ASSET, DEFAULT_ASSET, db.assets, tenant, b.assets, j.overwrite, j.env(3));
  }

  lemma MoreRecordsRestored(db: Db, tenant: string, b: Backup, j: Job)
    requires Restorable(db, tenant) && IsExport(b, db, tenant) && j.target == tenant && AllQuiet(j)
    ensures var p := PartsOf(OfOthers(db, tenant), b, j);
            && p.consumables.err == OK && SameRows(p.consumables.table, db.consumables, tenant, KEEP_CONSUMABLE)
            && p.consumables.skipped == 0
            && p.licenses.err == OK && SameRows(p.licenses.table, db.licenses, tenant, KEEP_LICENSE)
            && p.licenses.skipped == 0
            && p.policies.err == OK && SameRows(p.policies.table, db.policies, tenant, KEEP_POLICY)
            && p.policies.skipped == 0
  {
    assert Quiet(j.env(5)) && Quiet(j.env(6)) && Quiet(j.env(7));
    NotScrubbed(db.consumables, KEEP_CONSUMABLE);
    NotScrubbed(db.licenses, KEEP_LICENSE);
    NotScrubbed(db.policies, KEEP_POLICY);
    hide LoadRows, InsertRows, Order, Lists, Storable, Attachable, Attached, Shallow, SameRows, Quiet, Others, IdsOf;
    hide Scrubbed;
    hide WithAsset, WithPolicy, WithOwner;
    TableRestored(CONSUMABLES, KEEP_CONSUMABLE, KEEP_CONSUMABLE, db.consumables, tenant, b.consumables, j.overwrite,
                  j.env(5));
    TableRestored(LICENSES, KEEP_LICENSE, DEFAULT_LICENSE, db.licenses, tenant, b.licenses, j.overwrite, j.env(6));
    TableRestored(POLICIES, KEEP_POLICY, DEFAULT_POLICY, db.policies, tenant, b.policies, j.overwrite, j.env(7));
  }

  lemma ListsWhole<B>(rows: seq<Row<B>>, part: Table<B>, t: Table<B>, tenant: string)
    requires Lists(rows, part, tenant) && forall x <- part :: x in t && part[x] == t[x]
    requires forall x <- t :: t[x].tenant == tenant ==> x in part
    ensures Lists(rows, t, tenant)
  {
    hide Distinct, IdSet;
    assert IdsOf(part, tenant) == IdsOf(t, tenant);
  }

  lemma NothingDangles(b: Backup, db: Db, tenant: string)
    requires Attached(db, tenant) && IsExport(b, db, tenant)
    ensures Lists(b.assignments, db.assignments, tenant) && Lists(b.links, db.links, tenant)
    ensures Lists(b.documents, db.documents, tenant)
  {
    hide Lists, Owned;
    ListsWhole(b.assignments, WithAsset(db, tenant), db.assignments, tenant);
    ListsWhole(b.links, WithPolicy(db, tenant), db.links, tenant);
    ListsWhole(b.documents, WithOwner(db, tenant), db.documents, tenant);
  }

  lemma AttachmentsRestored(db: Db, tenant: string, b: Backup, j: Job)
    requires Restorable(db, tenant) && IsExport(b, db, tenant) && j.target == tenant && AllQuiet(j)
    requires PartsOf(OfOthers(db, tenant), b, j).assets.made == IdsOf(db.assets, tenant)
    ensures var p := PartsOf(OfOthers(db, tenant), b, j);
            && p.assignments.err == OK && p.assignments.table == db.assignments && p.assignments.skipped == 0
            && p.links.err == OK && p.links.table == db.links && p.links.skipped == 0
            && p.documents.err == OK && p.documents.table == db.documents && p.documents.skipped == 0
  {
    assert Quiet(j.env(4)) && Quiet(j.env(8)) && Quiet(j.env(9));
    NothingDangles(b, db, tenant);
    hide LoadRows, InsertRows, Order, Lists, Storable, Attachable, Attached, Shallow, SameRows, Quiet, Others, IdsOf;
    hide Scrubbed;
    hide WithAsset, WithPolicy, WithOwner, ASSIGNMENTS, DOCUMENTS;
    TableReattached(ASSIGNMENTS(IdsOf(db.assets, tenant)), db.assignments, tenant, b.assignments, j.env(4));
    TableReattached(LINKS, db.links, tenant, b.links, j.env(8));
    TableReattached(DOCUMENTS(tenant), db.documents, tenant, b.documents, j.env(9));
  }

  predicate NothingSkipped(c: Counts) {
    && c.suppliers.skipped == 0 && c.locations.skipped == 0 && c.categories.skipped == 0 && c.assets.skipped == 0
    && c.assignments.skipped == 0 && c.consumables.skipped == 0 && c.licenses.skipped == 0
    && c.policies.skipped == 0 && c.links.skipped == 0 && c.documents.skipped == 0
  }

  /** The backup round trip: a full import of a tenant's own export succeeds,
      deletes every record, skips none, and rebuilds all ten collections. */
  lemma ExportThenImport(db: Db, b: Backup, q: Request, env: nat -> Env, mint: nat -> string, l: Listing, f: Stops)
    requires Restorable(db, Target(q)) && IsExport(b, db, Target(q)) && Valid(b)
    requires Allowed(q) && q.full && ListsAll(l, db, Target(q)) && Smooth(l, f) && forall i: nat :: Quiet(env(i))
    ensures var r := Import(db, b, q, env, mint, l, f);
            && r.fault == NoFault && r.deleted == RowCount(l) && NothingSkipped(r.counts)
            && Restored(r.db, db, Target(q))
  {
    var tenant, j := Target(q), JobOf(q, env);
    assert AllQuiet(j);
    WipeEmpties(db, tenant, l, f);
    LoadAllJoins(OfOthers(db, tenant), b, j);
    RecordsRestored(db, tenant, b, j);
    MoreRecordsRestored(db, tenant, b, j);
    AttachmentsRestored(db, tenant, b, j);
    hide PartsOf, LoadAll, WipeUntil, OfOthers, Restorable, SameRows, Valid, Lists;
  }
}
