/** The in-memory store: tenant-filtered tables keyed by id, with unique guards
    on create and update, and cascades, guards and set-null on delete. */
module Store {
  import opened Optional

  /** Milliseconds; 0 is the zero time. */
  type Time = int

  /** What a store call answers. */
  datatype Err = OK | NotFound | Conflict | NotEmpty | Failed

  /** A row: the columns the tables share, and the rest. */
  datatype Row<+B> = Row(id: string, tenant: string, created: Time, updated: Time, body: B)

  type Table<+B> = map<string, Row<B>>

  datatype Contact = Contact(person: string, phone: string, email: string)
  const NO_CONTACT := Contact("", "", "")

  // Columns that every operation here copies unchanged are kept together in details.
  datatype Supplier = Supplier(name: string, status: string, contact: Contact, details: string)
  datatype Location = Location(name: string, parent: string, status: string, contact: Contact, details: string)
  datatype Category = Category(name: string, parent: string, details: string)
  datatype Asset = Asset(tag: string, name: string, serial: string, model: string,
                         category: string, supplier: string, location: string,
                         user: string, status: string, rate: real,
                         tags: map<string, string>, details: string)
  datatype Consumable = Consumable(name: string, category: string, supplier: string, location: string, details: string)
  datatype License = License(name: string, supplier: string, status: string, details: string)
  datatype Policy = Policy(name: string, number: string, status: string, details: string)

  // Attachments. An assignment is created when it is made (AssignedAt); none of
  // the three has an update time, so that column stays as it is.
  datatype Assignment = Assignment(asset: string, user: string, action: string, returned: Option<Time>, details: string)
  datatype Link = Link(policy: string, asset: string, details: string)
  datatype Document = Document(entityType: string, entity: string, key: string, paperless: string, details: string)

  /** Everything the store holds. */
  datatype Db = Db(suppliers: Table<Supplier>, locations: Table<Location>, categories: Table<Category>,
                   assets: Table<Asset>, consumables: Table<Consumable>, licenses: Table<License>,
                   policies: Table<Policy>, assignments: Table<Assignment>,
                   links: Table<Link>, documents: Table<Document>)

  // ---- tables

  /** The two things in which the record tables differ: the unique guard, and the
      columns filled with a default on create and on update. */
  datatype Kind<!B> = Kind(clash: (B, B) -> bool, fill: B -> B, refill: B -> B)

  function Active(status: string): string { if status == "" then "active" else status }

  function Rate(rate: real): real { if rate == 0.0 then 0.40 else rate }

  const SUPPLIERS: Kind<Supplier> := Kind(
    (a: Supplier, b: Supplier) => a.name == b.name,
    (a: Supplier) => a.(status := Active(a.status)),
    (a: Supplier) => a)

  const LOCATIONS: Kind<Location> := Kind(
    (a: Location, b: Location) => a.name == b.name,
    (a: Location) => a.(status := Active(a.status)),
    (a: Location) => a)

  const CATEGORIES: Kind<Category> := Kind(
    (a: Category, b: Category) => a.name == b.name && a.parent == b.parent,
    (a: Category) => a,
    (a: Category) => a)

  const ASSETS: Kind<Asset> := Kind(
    (a: Asset, b: Asset) => a.tag == b.tag,
    (a: Asset) => a.(status := if a.status == "" then "deployable" else a.status, rate := Rate(a.rate)),
    (a: Asset) => a.(rate := Rate(a.rate)))

  const CONSUMABLES: Kind<Consumable> := Kind(
    (a: Consumable, b: Consumable) => false,
    (a: Consumable) => a,
    (a: Consumable) => a)

  const LICENSES: Kind<License> := Kind(
    (a: License, b: License) => false,
    (a: License) => a.(status := Active(a.status)),
    (a: License) => a)

  const POLICIES: Kind<Policy> := Kind(
    (a: Policy, b: Policy) => a.number == b.number || a.name == b.name,
    (a: Policy) => a.(status := Active(a.status)),
    (a: Policy) => a)

  /** Each row is filed under its id, and no id is empty. */
  ghost predicate Keyed<B>(t: Table<B>) { forall k <- t :: t[k].id == k && k != "" }

  ghost predicate KeyedAll(db: Db) {
    && Keyed(db.suppliers) && Keyed(db.locations) && Keyed(db.categories) && Keyed(db.assets) && Keyed(db.consumables)
    && Keyed(db.licenses) && Keyed(db.policies) && Keyed(db.assignments) && Keyed(db.links) && Keyed(db.documents)
  }

  predicate Has<B>(t: Table<B>, tenant: string, id: string) { id in t && t[id].tenant == tenant }

  /** Another row of the tenant (other than the one filed under except) holds the unique columns. */
  predicate Taken<B>(k: Kind<B>, t: Table<B>, tenant: string, body: B, except: string) {
    exists x <- t :: x != except && t[x].tenant == tenant && k.clash(t[x].body, body)
  }

  datatype Reply<+T> = Reply(err: Err, value: T)

  /** Create: refused when the unique columns or the id are taken; fills the
      defaults and stamps the times. mint is the id given to a row without one. */
  function Create<B>(k: Kind<B>, t: Table<B>, r: Row<B>, mint: string, now: Time): Reply<Table<B>> {
    var id := if r.id == "" then mint else r.id;
    if (exists x <- t :: t[x].tenant == r.tenant && k.clash(t[x].body, r.body)) || id in t then Reply(Conflict, t)
    else
      Reply(OK, t[id := Row(id, r.tenant, if r.created == 0 then now else r.created, now, k.fill(r.body))])
  }

  /** Update: refused when the row is not the tenant's or another row holds the
      unique columns; keeps the creation time. */
  function Update<B>(k: Kind<B>, t: Table<B>, r: Row<B>, now: Time): Reply<Table<B>> {
    if !Has(t, r.tenant, r.id) then Reply(NotFound, t)
    else if Taken(k, t, r.tenant, r.body, r.id) then Reply(Conflict, t)
    else Reply(OK, t[r.id := Row(r.id, r.tenant, t[r.id].created, now, k.refill(r.body))])
  }

  /** The ids of a tenant's rows. */
  function IdsOf<B>(t: Table<B>, tenant: string): set<string> {
    set x | x in t && t[x].tenant == tenant
  }

  /** The rows of everyone else. */
  function Others<B>(t: Table<B>, tenant: string): Table<B> {
    map x | x in t && t[x].tenant != tenant :: t[x]
  }

  function IdSet<B>(rows: seq<Row<B>>): set<string> {
    if rows == [] then {} else IdSet(rows[..|rows| - 1]) + {rows[|rows| - 1].id}
  }

  predicate Distinct<B>(rows: seq<Row<B>>) {
    rows == [] || (Distinct(rows[..|rows| - 1]) && rows[|rows| - 1].id !in IdSet(rows[..|rows| - 1]))
  }

  /** Some listing of a tenant's rows: each exactly once, in any order. */
  ghost predicate Lists<B>(rows: seq<Row<B>>, t: Table<B>, tenant: string) {
    && Distinct(rows) && IdSet(rows) == IdsOf(t, tenant)
    && forall r <- rows :: r.id in t && r == t[r.id]
  }

  lemma {:induction false} InIdSet<B>(rows: seq<Row<B>>, id: string)
    ensures id in IdSet(rows) <==> exists i :: 0 <= i < |rows| && rows[i].id == id
  {
    if rows != [] {
      InIdSet(rows[..|rows| - 1], id);
    }
  }

  lemma {:induction false} DistinctApart<B>(rows: seq<Row<B>>, i: nat, j: nat)
    requires Distinct(rows) && i < j < |rows|
    ensures rows[i].id != rows[j].id
  {
    var n := |rows| - 1;
    if j < n {
      DistinctApart(rows[..n], i, j);
    } else {
      assert rows[..n][i].id == rows[i].id;
      InIdSet(rows[..n], rows[i].id);
    }
  }

  // ---- deletion

  const ENTITY_ASSET := "asset"
  const ENTITY_CONSUMABLE := "consumable"
  const ENTITY_LICENSE := "license"

  datatype Collection = Policies | Licenses | Consumables | Assets | Categories | Locations | Suppliers

  predicate Holds(db: Db, c: Collection, tenant: string, id: string) {
    match c
    case Policies => Has(db.policies, tenant, id)
    case Licenses => Has(db.licenses, tenant, id)
    case Consumables => Has(db.consumables, tenant, id)
    case Assets => Has(db.assets, tenant, id)
    case Categories => Has(db.categories, tenant, id)
    case Locations => Has(db.locations, tenant, id)
    case Suppliers => Has(db.suppliers, tenant, id)
  }

  /** A category or location with children or assets cannot be deleted. */
  predicate Blocked(db: Db, c: Collection, tenant: string, id: string) {
    match c
    case Categories =>
      || (exists x <- db.categories :: db.categories[x].tenant == tenant && db.categories[x].body.parent == id)
      || (exists x <- db.assets :: db.assets[x].tenant == tenant && db.assets[x].body.category == id)
    case Locations =>
      || (exists x <- db.locations :: db.locations[x].tenant == tenant && db.locations[x].body.parent == id)
      || (exists x <- db.assets :: db.assets[x].tenant == tenant && db.assets[x].body.location == id)
    case _ => false
  }

  function DropLinks(links: Table<Link>, tenant: string, policies: set<string>, assets: set<string>): Table<Link> {
    map x | x in links && !(links[x].tenant == tenant
                            && (links[x].body.policy in policies || links[x].body.asset in assets)) :: links[x]
  }

  function DropDocuments(docs: Table<Document>, tenant: string, kind: string, ids: set<string>): Table<Document> {
    map x | x in docs && !(docs[x].tenant == tenant
                           && docs[x].body.entityType == kind && docs[x].body.entity in ids) :: docs[x]
  }

  function DropAssignments(rows: Table<Assignment>, tenant: string, assets: set<string>): Table<Assignment> {
    map x | x in rows && !(rows[x].tenant == tenant && rows[x].body.asset in assets) :: rows[x]
  }

  function Unless(ref: string, ids: set<string>): string { if ref in ids then "" else ref }

  function ClearCategory(t: Table<Consumable>, tenant: string, ids: set<string>): Table<Consumable> {
    map x | x in t ::
      if t[x].tenant == tenant then t[x].(body := t[x].body.(category := Unless(t[x].body.category, ids))) else t[x]
  }

  function ClearLocation(t: Table<Consumable>, tenant: string, ids: set<string>): Table<Consumable> {
    map x | x in t ::
      if t[x].tenant == tenant then t[x].(body := t[x].body.(location := Unless(t[x].body.location, ids))) else t[x]
  }

  function ClearSupplier(t: Table<Consumable>, tenant: string, ids: set<string>): Table<Consumable> {
    map x | x in t ::
      if t[x].tenant == tenant then t[x].(body := t[x].body.(supplier := Unless(t[x].body.supplier, ids))) else t[x]
  }

  function ClearAssetSupplier(t: Table<Asset>, tenant: string, ids: set<string>): Table<Asset> {
    map x | x in t ::
      if t[x].tenant == tenant then t[x].(body := t[x].body.(supplier := Unless(t[x].body.supplier, ids))) else t[x]
  }

  function ClearLicenseSupplier(t: Table<License>, tenant: string, ids: set<string>): Table<License> {
    map x | x in t ::
      if t[x].tenant == tenant then t[x].(body := t[x].body.(supplier := Unless(t[x].body.supplier, ids))) else t[x]
  }

  /** The database without some of a tenant's rows of one collection, with the
      cascades and the set-null of their foreign keys. */
  function Drop(db: Db, c: Collection, tenant: string, ids: set<string>): Db {
    match c
    case Policies =>
      db.(policies := db.policies - ids, links := DropLinks(db.links, tenant, ids, {}))
    case Licenses =>
      db.(licenses := db.licenses - ids, documents := DropDocuments(db.documents, tenant, ENTITY_LICENSE, ids))
    case Consumables =>
      db.(consumables := db.consumables - ids, documents := DropDocuments(db.documents, tenant, ENTITY_CONSUMABLE, ids))
    case Assets =>
      db.(assets := db.assets - ids,
          assignments := DropAssignments(db.assignments, tenant, ids),
          documents := DropDocuments(db.documents, tenant, ENTITY_ASSET, ids),
          links := DropLinks(db.links, tenant, {}, ids))
    case Categories =>
      db.(categories := db.categories - ids, consumables := ClearCategory(db.consumables, tenant, ids))
    case Locations =>
      db.(locations := db.locations - ids, consumables := ClearLocation(db.consumables, tenant, ids))
    case Suppliers =>
      db.(suppliers := db.suppliers - ids,
          assets := ClearAssetSupplier(db.assets, tenant, ids),
          consumables := ClearSupplier(db.consumables, tenant, ids),
          licenses := ClearLicenseSupplier(db.licenses, tenant, ids))
  }

  function Delete(db: Db, c: Collection, tenant: string, id: string): Reply<Db> {
    if !Holds(db, c, tenant, id) then Reply(NotFound, db)
    else if Blocked(db, c, tenant, id) then Reply(NotEmpty, db)
    else Reply(OK, Drop(db, c, tenant, {id}))
  }

  // ---- what a delete does, row by row

  /** The tenant's rows of one table that pass a test are gone, all others as they were. */
  ghost predicate Loses<B(!new)>(t: Table<B>, n: Table<B>, tenant: string, test: B -> bool) {
    forall x :: (x in n <==> x in t && !(t[x].tenant == tenant && test(t[x].body))) && (x in n ==> n[x] == t[x])
  }

  /** The tenant's rows of one table that pass a test are changed, all others as they were. */
  ghost predicate Turns<B(!new)>(t: Table<B>, n: Table<B>, tenant: string, test: B -> bool, change: B -> B) {
    && n.Keys == t.Keys
    && forall x <- t ::
         n[x] == if t[x].tenant == tenant && test(t[x].body) then t[x].(body := change(t[x].body)) else t[x]
  }

  /** A delete is refused for a row that is not the tenant's, and for a category or location with
      children or assets; otherwise the row goes. */
  lemma DeletesExactly(db: Db, c: Collection, tenant: string, id: string)
    ensures var r := Delete(db, c, tenant, id);
      && (r.err == NotFound <==> !Holds(db, c, tenant, id))
      && (r.err == NotEmpty <==>
            && Holds(db, c, tenant, id)
            && (|| (c == Categories && exists x <- db.categories ::
                      db.categories[x].tenant == tenant && db.categories[x].body.parent == id)
                || (c == Categories && exists x <- db.assets ::
                      db.assets[x].tenant == tenant && db.assets[x].body.category == id)
                || (c == Locations && exists x <- db.locations ::
                      db.locations[x].tenant == tenant && db.locations[x].body.parent == id)
                || (c == Locations && exists x <- db.assets ::
                      db.assets[x].tenant == tenant && db.assets[x].body.location == id)))
      && (r.err == OK || r.value == db) && (r.err == OK ==> !Holds(r.value, c, tenant, id))
  {
  }

  lemma SupplierNulls(db: Db, tenant: string, id: string)
    ensures var n := ClearAssetSupplier(db.assets, tenant, {id});
      Turns(db.assets, n, tenant, (a: Asset) => a.supplier == id, (a: Asset) => a.(supplier := ""))
    ensures var n := ClearLicenseSupplier(db.licenses, tenant, {id});
      Turns(db.licenses, n, tenant, (a: License) => a.supplier == id, (a: License) => a.(supplier := ""))
  {
  }

  lemma ConsumableNulls(t: Table<Consumable>, tenant: string, id: string)
    ensures Turns(t, ClearSupplier(t, tenant, {id}), tenant, (a: Consumable) => a.supplier == id,
                  (a: Consumable) => a.(supplier := ""))
    ensures Turns(t, ClearCategory(t, tenant, {id}), tenant, (a: Consumable) => a.category == id,
                  (a: Consumable) => a.(category := ""))
    ensures Turns(t, ClearLocation(t, tenant, {id}), tenant, (a: Consumable) => a.location == id,
                  (a: Consumable) => a.(location := ""))
  {
  }

  /** With a supplier, a category or a location the foreign keys that name it are emptied, in the
      tenant's rows and no others; nothing else changes. */
  lemma DeleteNulls(db: Db, tenant: string, id: string)
    ensures var n := Drop(db, Suppliers, tenant, {id});
      && n == db.(suppliers := db.suppliers - {id}, assets := n.assets, consumables := n.consumables,
                  licenses := n.licenses)
      && Turns(db.assets, n.assets, tenant, (a: Asset) => a.supplier == id, (a: Asset) => a.(supplier := ""))
      && Turns(db.consumables, n.consumables, tenant, (a: Consumable) => a.supplier == id,
               (a: Consumable) => a.(supplier := ""))
      && Turns(db.licenses, n.licenses, tenant, (a: License) => a.supplier == id, (a: License) => a.(supplier := ""))
    ensures var n := Drop(db, Categories, tenant, {id});
      && n == db.(categories := db.categories - {id}, consumables := n.consumables)
      && Turns(db.consumables, n.consumables, tenant, (a: Consumable) => a.category == id,
               (a: Consumable) => a.(category := ""))
    ensures var n := Drop(db, Locations, tenant, {id});
      && n == db.(locations := db.locations - {id}, consumables := n.consumables)
      && Turns(db.consumables, n.consumables, tenant, (a: Consumable) => a.location == id,
               (a: Consumable) => a.(location := ""))
  {
    hide Turns, ClearAssetSupplier, ClearLicenseSupplier, ClearSupplier, ClearCategory, ClearLocation;
    SupplierNulls(db, tenant, id);
    ConsumableNulls(db.consumables, tenant, id);
  }

  lemma LinksGo(t: Table<Link>, tenant: string, id: string)
    ensures Loses(t, DropLinks(t, tenant, {}, {id}), tenant, (a: Link) => a.asset == id)
    ensures Loses(t, DropLinks(t, tenant, {id}, {}), tenant, (a: Link) => a.policy == id)
  {
  }

  lemma DocumentsGo(t: Table<Document>, tenant: string, kind: string, id: string)
    ensures Loses(t, DropDocuments(t, tenant, kind, {id}), tenant,
                  (a: Document) => a.entityType == kind && a.entity == id)
  {
  }

  lemma AssignmentsGo(t: Table<Assignment>, tenant: string, id: string)
    ensures Loses(t, DropAssignments(t, tenant, {id}), tenant, (a: Assignment) => a.asset == id)
  {
  }

  /** With an asset go its assignments, documents and policy links; with a policy its links; with a
      license or a consumable its documents; nothing else changes. */
  lemma DeleteCascades(db: Db, tenant: string, id: string)
    ensures var n := Drop(db, Assets, tenant, {id});
      && n == db.(assets := db.assets - {id}, assignments := n.assignments, documents := n.documents, links := n.links)
      && Loses(db.assignments, n.assignments, tenant, (a: Assignment) => a.asset == id)
      && Loses(db.documents, n.documents, tenant, (a: Document) => a.entityType == "asset" && a.entity == id)
      && Loses(db.links, n.links, tenant, (a: Link) => a.asset == id)
    ensures var n := Drop(db, Policies, tenant, {id});
      && n == db.(policies := db.policies - {id}, links := n.links)
      && Loses(db.links, n.links, tenant, (a: Link) => a.policy == id)
    ensures var n := Drop(db, Licenses, tenant, {id});
      && n == db.(licenses := db.licenses - {id}, documents := n.documents)
      && Loses(db.documents, n.documents, tenant, (a: Document) => a.entityType == "license" && a.entity == id)
    ensures var n := Drop(db, Consumables, tenant, {id});
      && n == db.(consumables := db.consumables - {id}, documents := n.documents)
      && Loses(db.documents, n.documents, tenant, (a: Document) => a.entityType == "consumable" && a.entity == id)
  {
    hide Loses, DropLinks, DropDocuments, DropAssignments;
    LinksGo(db.links, tenant, id);
    AssignmentsGo(db.assignments, tenant, id);
    DocumentsGo(db.documents, tenant, "asset", id);
    DocumentsGo(db.documents, tenant, "license", id);
    DocumentsGo(db.documents, tenant, "consumable", id);
  }

  /** The store itself: the maps, updated in place by its calls. */
  class Mem {
    var suppliers: Table<Supplier>
    var locations: Table<Location>
    var categories: Table<Category>
    var assets: Table<Asset>
    var consumables: Table<Consumable>
    var licenses: Table<License>
    var policies: Table<Policy>
    var assignments: Table<Assignment>
    var links: Table<Link>
    var documents: Table<Document>

    function Contents(): Db
      reads this
    {
      Db(suppliers, locations, categories, assets, consumables, licenses, policies, assignments, links, documents)
    }

    constructor ()
      ensures Contents() == Db(map[], map[], map[], map[], map[], map[], map[], map[], map[], map[])
    {
      suppliers, locations, categories, assets, consumables := map[], map[], map[], map[], map[];
      licenses, policies, assignments, links, documents := map[], map[], map[], map[], map[];
    }

    method Remove(c: Collection, tenant: string, id: string) returns (err: Err)
      modifies this
      ensures err == Delete(old(Contents()), c, tenant, id).err
      ensures Contents() == Delete(old(Contents()), c, tenant, id).value
    {
      hide Holds, Blocked, DropLinks, DropDocuments, DropAssignments, ClearCategory, ClearLocation, ClearSupplier;
      hide ClearAssetSupplier, ClearLicenseSupplier;
      if !Holds(Contents(), c, tenant, id) {
        return NotFound;
      }
      if Blocked(Contents(), c, tenant, id) {
        return NotEmpty;
      }
      match c {
        case Policies =>
          links := DropLinks(links, tenant, {id}, {});
          policies := policies - {id};
        case Licenses =>
          documents := DropDocuments(documents, tenant, ENTITY_LICENSE, {id});
          licenses := licenses - {id};
        case Consumables =>
          documents := DropDocuments(documents, tenant, ENTITY_CONSUMABLE, {id});
          consumables := consumables - {id};
        case Assets =>
          assignments := DropAssignments(assignments, tenant, {id});
          documents := DropDocuments(documents, tenant, ENTITY_ASSET, {id});
          links := DropLinks(links, tenant, {}, {id});
          assets := assets - {id};
        case Categories =>
          consumables := ClearCategory(consumables, tenant, {id});
          categories := categories - {id};
        case Locations =>
          consumables := ClearLocation(consumables, tenant, {id});
          locations := locations - {id};
        case Suppliers =>
          assets := ClearAssetSupplier(assets, tenant, {id});
          consumables := ClearSupplier(consumables, tenant, {id});
          licenses := ClearLicenseSupplier(licenses, tenant, {id});
          suppliers := suppliers - {id};
      }
      return OK;
    }
  }
}
