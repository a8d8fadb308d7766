/** What imports keep: rows that were there, other tenants, the row counts, and
    everything when the same document is loaded again. */
module Restoring {
  import opened Store
  import opened Archive
  import opened Ordering
  import opened Wipe
  import opened Loading
  import opened Attaching
  import opened Importing
  import Remap

  // ---- nothing lost, nobody else touched

  ghost predicate GrowsAll(a: Db, b: Db) {
    && Grows(a.suppliers, b.suppliers) && Grows(a.locations, b.locations) && Grows(a.categories, b.categories)
    && Grows(a.assets, b.assets) && Grows(a.assignments, b.assignments) && Grows(a.consumables, b.consumables)
    && Grows(a.licenses, b.licenses) && Grows(a.policies, b.policies) && Grows(a.links, b.links)
    && Grows(a.documents, b.documents)
  }

  /** Other tenants' rows are the same; without overwrite so are the rows that were there. */
  ghost predicate Keeps(a: Db, b: Db, j: Job) {
    OfOthers(a, j.target) == OfOthers(b, j.target) && (!j.overwrite ==> GrowsAll(a, b))
  }

  lemma AllGrow(a: Db)
    ensures GrowsAll(a, a)
  {}

  lemma KeepsFurther(a: Db, b: Db, c: Db, j: Job)
    requires Keeps(a, b, j) && Keeps(b, c, j)
    ensures Keeps(a, c, j)
  {
    hide OfOthers;
  }

  lemma SuppliersKeep(s: Progress, b: Backup, j: Job)
    ensures Keeps(s.db, LoadSuppliers(s, b, j).db, j)
  {
    hide Grows, LoadRows, InsertRows, Others, Order;
    var l := LoadRows(SUPPLIERS, SCRUB_SUPPLIER, s.db.suppliers, b.suppliers, j.target, j.overwrite, j.env(0));
    assert !j.overwrite ==> Grows(s.db.suppliers, l.table) by {
      if !j.overwrite {
        LoadGrows(SUPPLIERS, SCRUB_SUPPLIER, s.db.suppliers, b.suppliers, j.target, j.env(0));
      }
    }
    assert Others(l.table, j.target) == Others(s.db.suppliers, j.target) by {
      LoadLeavesOthers(SUPPLIERS, SCRUB_SUPPLIER, s.db.suppliers, b.suppliers, j.target, j.overwrite, j.env(0));
    }
    AllGrow(s.db);
  }

  lemma LocationsKeep(s: Progress, b: Backup, j: Job)
    ensures Keeps(s.db, LoadLocations(s, b, j).db, j)
  {
    hide Grows, LoadRows, InsertRows, Others, Order;
    var l := LoadRows(LOCATIONS, SCRUB_LOCATION, s.db.locations, Order(b.locations, LOCATION_UP), j.target,
                      j.overwrite, j.env(1));
    assert !j.overwrite ==> Grows(s.db.locations, l.table) by {
      if !j.overwrite {
        LoadGrows(LOCATIONS, SCRUB_LOCATION, s.db.locations, Order(b.locations, LOCATION_UP), j.target, j.env(1));
      }
    }
    assert Others(l.table, j.target) == Others(s.db.locations, j.target) by {
      LoadLeavesOthers(LOCATIONS, SCRUB_LOCATION, s.db.locations, Order(b.locations, LOCATION_UP), j.target,
                       j.overwrite, j.env(1));
    }
    AllGrow(s.db);
  }

  lemma CategoriesKeep(s: Progress, b: Backup, j: Job)
    ensures Keeps(s.db, LoadCategories(s, b, j).db, j)
  {
    hide Grows, LoadRows, InsertRows, Others, Order;
    var l := LoadRows(CATEGORIES, KEEP_CATEGORY, s.db.categories, Order(b.categories, CATEGORY_UP), j.target,
                      j.overwrite, j.env(2));
    assert !j.overwrite ==> Grows(s.db.categories, l.table) by {
      if !j.overwrite {
        LoadGrows(CATEGORIES, KEEP_CATEGORY, s.db.categories, Order(b.categories, CATEGORY_UP), j.target, j.env(2));
      }
    }
    assert Others(l.table, j.target) == Others(s.db.categories, j.target) by {
      LoadLeavesOthers(CATEGORIES, KEEP_CATEGORY, s.db.categories, Order(b.categories, CATEGORY_UP), j.target,
                       j.overwrite, j.env(2));
    }
    AllGrow(s.db);
  }

  lemma AssetsKeep(s: Progress, b: Backup, j: Job)
    ensures Keeps(s.db, LoadAssets(s, b, j).db, j)
  {
    hide Grows, LoadRows, InsertRows, Others, Order;
    var l := LoadRows(ASSETS, DEFAULT_ASSET, s.db.assets, b.assets, j.target, j.overwrite, j.env(3));
    assert !j.overwrite ==> Grows(s.db.assets, l.table) by {
      if !j.overwrite {
        LoadGrows(ASSETS, DEFAULT_ASSET, s.db.assets, b.assets, j.target, j.env(3));
      }
    }
    assert Others(l.table, j.target) == Others(s.db.assets, j.target) by {
      LoadLeavesOthers(ASSETS, DEFAULT_ASSET, s.db.assets, b.assets, j.target, j.overwrite, j.env(3));
    }
    AllGrow(s.db);
  }

  lemma AssignmentsKeep(s: Progress, b: Backup, j: Job)
    ensures Keeps(s.db, LoadAssignments(s, b, j).db, j)
  {
    hide Grows, LoadRows, InsertRows, Others, Order;
    var l := InsertRows(ASSIGNMENTS(s.made), s.db.assignments, b.assignments, j.target, j.env(4));
    assert Grows(s.db.assignments, l.table) by {
      InsertGrows(ASSIGNMENTS(s.made), s.db.assignments, b.assignments, j.target, j.env(4));
    }
    assert Others(l.table, j.target) == Others(s.db.assignments, j.target) by {
      InsertLeavesOthers(ASSIGNMENTS(s.made), s.db.assignments, b.assignments, j.target, j.env(4));
    }
    AllGrow(s.db);
  }

  lemma ConsumablesKeep(s: Progress, b: Backup, j: Job)
    ensures Keeps(s.db, LoadConsumables(s, b, j).db, j)
  {
    hide Grows, LoadRows, InsertRows, Others, Order;
    var l := LoadRows(CONSUMABLES, KEEP_CONSUMABLE, s.db.consumables, b.consumables, j.target, j.overwrite, j.env(5));
    assert !j.overwrite ==> Grows(s.db.consumables, l.table) by {
      if !j.overwrite {
        LoadGrows(CONSUMABLES, KEEP_CONSUMABLE, s.db.consumables, b.consumables, j.target, j.env(5));
      }
    }
    assert Others(l.table, j.target) == Others(s.db.consumables, j.target) by {
      LoadLeavesOthers(CONSUMABLES, KEEP_CONSUMABLE, s.db.consumables, b.consumables, j.target, j.overwrite, j.env(5));
    }
    AllGrow(s.db);
  }

  lemma LicensesKeep(s: Progress, b: Backup, j: Job)
    ensures Keeps(s.db, LoadLicenses(s, b, j).db, j)
  {
    hide Grows, LoadRows, InsertRows, Others, Order;
    var l := LoadRows(LICENSES, DEFAULT_LICENSE, s.db.licenses, b.licenses, j.target, j.overwrite, j.env(6));
    assert !j.overwrite ==> Grows(s.db.licenses, l.table) by {
      if !j.overwrite {
        LoadGrows(LICENSES, DEFAULT_LICENSE, s.db.licenses, b.licenses, j.target, j.env(6));
      }
    }
    assert Others(l.table, j.target) == Others(s.db.licenses, j.target) by {
      LoadLeavesOthers(LICENSES, DEFAULT_LICENSE, s.db.licenses, b.licenses, j.target, j.overwrite, j.env(6));
    }
    AllGrow(s.db);
  }

  lemma PoliciesKeep(s: Progress, b: Backup, j: Job)
    ensures Keeps(s.db, LoadPolicies(s, b, j).db, j)
  {
    hide Grows, LoadRows, InsertRows, Others, Order;
    var l := LoadRows(POLICIES, DEFAULT_POLICY, s.db.policies, b.policies, j.target, j.overwrite, j.env(7));
    assert !j.overwrite ==> Grows(s.db.policies, l.table) by {
      if !j.overwrite {
        LoadGrows(POLICIES, DEFAULT_POLICY, s.db.policies, b.policies, j.target, j.env(7));
      }
    }
    assert Others(l.table, j.target) == Others(s.db.policies, j.target) by {
      LoadLeavesOthers(POLICIES, DEFAULT_POLICY, s.db.policies, b.policies, j.target, j.overwrite, j.env(7));
    }
    AllGrow(s.db);
  }

  lemma LinksKeep(s: Progress, b: Backup, j: Job)
    ensures Keeps(s.db, LoadLinks(s, b, j).db, j)
  {
    hide Grows, LoadRows, InsertRows, Others, Order;
    var l := InsertRows(LINKS, s.db.links, b.links, j.target, j.env(8));
    assert Grows(s.db.links, l.table) by {
      InsertGrows(LINKS, s.db.links, b.links, j.target, j.env(8));
    }
    assert Others(l.table, j.target) == Others(s.db.links, j.target) by {
      InsertLeavesOthers(LINKS, s.db.links, b.links, j.target, j.env(8));
    }
    AllGrow(s.db);
  }

  lemma DocumentsKeep(s: Progress, b: Backup, j: Job)
    ensures Keeps(s.db, LoadDocuments(s, b, j).db, j)
  {
    hide Grows, LoadRows, InsertRows, Others, Order;
    var l := InsertRows(DOCUMENTS(j.target), s.db.documents, b.documents, j.target, j.env(9));
    assert Grows(s.db.documents, l.table) by {
      InsertGrows(DOCUMENTS(j.target), s.db.documents, b.documents, j.target, j.env(9));
    }
    assert Others(l.table, j.target) == Others(s.db.documents, j.target) by {
      InsertLeavesOthers(DOCUMENTS(j.target), s.db.documents, b.documents, j.target, j.env(9));
    }
    AllGrow(s.db);
  }

  /** Even an import that fails half way has left other tenants alone and, in skip
      mode, every row that was there. */
  lemma LoadAllKeeps(db: Db, b: Backup, j: Job)
    ensures Keeps(db, LoadAll(db, b, j).db, j)
  {
    var s0 := Begin(db);
    var s1 := LoadSuppliers(s0, b, j);
    var s2 := LoadLocations(s1, b, j);
    var s3 := LoadCategories(s2, b, j);
    var s4 := LoadAssets(s3, b, j);
    var s5 := LoadAssignments(s4, b, j);
    var s6 := LoadConsumables(s5, b, j);
    var s7 := LoadLicenses(s6, b, j);
    var s8 := LoadPolicies(s7, b, j);
    var s9 := LoadLinks(s8, b, j);
    assert LoadAll(db, b, j) == LoadDocuments(s9, b, j);
    SuppliersKeep(s0, b, j);
    LocationsKeep(s1, b, j);
    CategoriesKeep(s2, b, j);
    AssetsKeep(s3, b, j);
    AssignmentsKeep(s4, b, j);
    ConsumablesKeep(s5, b, j);
    LicensesKeep(s6, b, j);
    PoliciesKeep(s7, b, j);
    LinksKeep(s8, b, j);
    DocumentsKeep(s9, b, j);
    hide Keeps, LoadAll, LoadSuppliers, LoadLocations, LoadCategories, LoadAssets, LoadAssignments;
    hide LoadConsumables, LoadLicenses, LoadPolicies, LoadLinks, LoadDocuments;
    KeepsFurther(db, s1.db, s2.db, j);
    KeepsFurther(db, s2.db, s3.db, j);
    KeepsFurther(db, s3.db, s4.db, j);
    KeepsFurther(db, s4.db, s5.db, j);
    KeepsFurther(db, s5.db, s6.db, j);
    KeepsFurther(db, s6.db, s7.db, j);
    KeepsFurther(db, s7.db, s8.db, j);
    KeepsFurther(db, s8.db, s9.db, j);
    KeepsFurther(db, s9.db, LoadAll(db, b, j).db, j);
  }

  /** What an import leaves behind is what it found, what a wipe left, or what the loads made of that. */
  lemma ImportEnds(db: Db, b: Backup, q: Request, env: nat -> Env, mint: nat -> string, l: Listing, f: Stops)
    ensures var r := Import(db, b, q, env, mint, l, f).db;
            var w := if q.full then WipeUntil(db, Target(q), l, f).db else db;
            r == db || r == w || r == LoadAll(w, Source(b, Target(q), mint), JobOf(q, env)).db
  {
    hide LoadAll, WipeUntil, Valid, Source;
  }

  /** Any import, allowed or not, failing or not, with or without wipe and remap,
      leaves every other tenant's rows as they were; without a wipe and in skip
      mode it changes no row at all. */
  lemma ImportKeeps(db: Db, b: Backup, q: Request, env: nat -> Env, mint: nat -> string, l: Listing, f: Stops)
    ensures OfOthers(Import(db, b, q, env, mint, l, f).db, Target(q)) == OfOthers(db, Target(q))
    ensures !q.full && q.mode != "overwrite" ==> GrowsAll(db, Import(db, b, q, env, mint, l, f).db)
  {
    hide OfOthers, GrowsAll, LoadAll, WipeUntil, Import, Source;
    AllGrow(db);
    ImportEnds(db, b, q, env, mint, l, f);
    WipeLeavesOthers(db, Target(q), l, f);
    LoadAllKeeps(if q.full then WipeUntil(db, Target(q), l, f).db else db, Source(b, Target(q), mint), JobOf(q, env));
  }

  // ---- the ten loads side by side

  /** The loads work on different tables, so each can be looked at by itself. */
  datatype Parts = Parts(suppliers: Load<Supplier>, locations: Load<Location>, categories: Load<Category>,
                         assets: Load<Asset>, assignments: Load<Assignment>, consumables: Load<Consumable>,
                         licenses: Load<License>, policies: Load<Policy>, links: Load<Link>, documents: Load<Document>)

  function PartsOf(db: Db, b: Backup, j: Job): Parts {
    var assets := LoadRows(ASSETS, DEFAULT_ASSET, db.assets, b.assets, j.target, j.overwrite, j.env(3));
    Parts(LoadRows(SUPPLIERS, SCRUB_SUPPLIER, db.suppliers, b.suppliers, j.target, j.overwrite, j.env(0)),
          LoadRows(LOCATIONS, SCRUB_LOCATION, db.locations, Order(b.locations, LOCATION_UP), j.target, j.overwrite,
                   j.env(1)),
          LoadRows(CATEGORIES, KEEP_CATEGORY, db.categories, Order(b.categories, CATEGORY_UP), j.target, j.overwrite,
                   j.env(2)),
          assets,
          InsertRows(ASSIGNMENTS(assets.made), db.assignments, b.assignments, j.target, j.env(4)),
          LoadRows(CONSUMABLES, KEEP_CONSUMABLE, db.consumables, b.consumables, j.target, j.overwrite, j.env(5)),
          LoadRows(LICENSES, DEFAULT_LICENSE, db.licenses, b.licenses, j.target, j.overwrite, j.env(6)),
          LoadRows(POLICIES, DEFAULT_POLICY, db.policies, b.policies, j.target, j.overwrite, j.env(7)),
          InsertRows(LINKS, db.links, b.links, j.target, j.env(8)),
          InsertRows(DOCUMENTS(j.target), db.documents, b.documents, j.target, j.env(9)))
  }

  predicate AllOK(p: Parts) {
    && p.suppliers.err == OK && p.locations.err == OK && p.categories.err == OK && p.assets.err == OK
    && p.assignments.err == OK && p.consumables.err == OK && p.licenses.err == OK && p.policies.err == OK
    && p.links.err == OK && p.documents.err == OK
  }

  function Joined(p: Parts): Progress {
    Progress(Db(p.suppliers.table, p.locations.table, p.categories.table, p.assets.table, p.consumables.table,
                p.licenses.table, p.policies.table, p.assignments.table, p.links.table, p.documents.table),
             Counts(Tally(p.suppliers), Tally(p.locations), Tally(p.categories), Tally(p.assets), Tally(p.assignments),
                    Tally(p.consumables), Tally(p.licenses), Tally(p.policies), Tally(p.links), Tally(p.documents)),
             p.assets.made, OK)
  }

  lemma LoadAllJoins(db: Db, b: Backup, j: Job)
    ensures LoadAll(db, b, j).err == OK <==> AllOK(PartsOf(db, b, j))
    ensures AllOK(PartsOf(db, b, j)) ==> LoadAll(db, b, j) == Joined(PartsOf(db, b, j))
  {
    hide LoadRows, InsertRows, Order;
    var p := PartsOf(db, b, j);
    var s1 := LoadSuppliers(Begin(db), b, j);
    var s2 := LoadLocations(s1, b, j);
    var s3 := LoadCategories(s2, b, j);
    var s4 := LoadRecords(db, b, j);
    assert s4.err == OK <==>
      p.suppliers.err == OK && p.locations.err == OK && p.categories.err == OK && p.assets.err == OK;
    var s5 := LoadAssignments(s4, b, j);
    var s6 := LoadConsumables(s5, b, j);
    var s7 := LoadLicenses(s6, b, j);
    var s8 := LoadRest(s4, b, j);
    assert s8.err == OK <==>
      && s4.err == OK && p.assignments.err == OK && p.consumables.err == OK && p.licenses.err == OK
      && p.policies.err == OK;
    var s9 := LoadLinks(s8, b, j);
  }

  // ---- accounting

  function Total(c: Count): nat { c.imported + c.skipped }

  lemma OrderSize<B>(rows: seq<Row<B>>, up: B -> string)
    ensures |Order(rows, up)| == |IdSet(rows)|
  {
    EveryIdOnce(rows, up);
    IdSetSize(Order(rows, up));
  }

  lemma TreeCounts(db: Db, b: Backup, j: Job)
    ensures var p := PartsOf(db, b, j);
            && (p.locations.err == OK ==> Total(Tally(p.locations)) == |IdSet(b.locations)|)
            && (p.categories.err == OK ==> Total(Tally(p.categories)) == |IdSet(b.categories)|)
  {
    hide LoadRows, InsertRows, Order, IdSet;
    OrderSize(b.locations, LOCATION_UP);
    OrderSize(b.categories, CATEGORY_UP);
    LoadCounts(LOCATIONS, SCRUB_LOCATION, db.locations, Order(b.locations, LOCATION_UP), j.target, j.overwrite,
               j.env(1));
    LoadCounts(CATEGORIES, KEEP_CATEGORY, db.categories, Order(b.categories, CATEGORY_UP), j.target, j.overwrite,
               j.env(2));
  }

  lemma RecordCounts(db: Db, b: Backup, j: Job)
    ensures var p := PartsOf(db, b, j);
            && (p.suppliers.err == OK ==> Total(Tally(p.suppliers)) == |b.suppliers|)
            && (p.assets.err == OK ==> Total(Tally(p.assets)) == |b.assets|)
            && (p.consumables.err == OK ==> Total(Tally(p.consumables)) == |b.consumables|)
            && (p.licenses.err == OK ==> Total(Tally(p.licenses)) == |b.licenses|)
            && (p.policies.err == OK ==> Total(Tally(p.policies)) == |b.policies|)
  {
    hide LoadRows, InsertRows, Order;
    LoadCounts(SUPPLIERS, SCRUB_SUPPLIER, db.suppliers, b.suppliers, j.target, j.overwrite, j.env(0));
    LoadCounts(ASSETS, DEFAULT_ASSET, db.assets, b.assets, j.target, j.overwrite, j.env(3));
    LoadCounts(CONSUMABLES, KEEP_CONSUMABLE, db.consumables, b.consumables, j.target, j.overwrite, j.env(5));
    LoadCounts(LICENSES, DEFAULT_LICENSE, db.licenses, b.licenses, j.target, j.overwrite, j.env(6));
    LoadCounts(POLICIES, DEFAULT_POLICY, db.policies, b.policies, j.target, j.overwrite, j.env(7));
  }

  lemma AttachmentCounts(db: Db, b: Backup, j: Job)
    ensures var p := PartsOf(db, b, j);
            && (p.assignments.err == OK ==> Total(Tally(p.assignments)) == |b.assignments|)
            && (p.links.err == OK ==> Total(Tally(p.links)) == |b.links|)
            && (p.documents.err == OK ==> Total(Tally(p.documents)) == |b.documents|)
  {
    hide LoadRows, InsertRows, Order;
    InsertCounts(ASSIGNMENTS(PartsOf(db, b, j).assets.made), db.assignments, b.assignments, j.target, j.env(4));
    InsertCounts(LINKS, db.links, b.links, j.target, j.env(8));
    InsertCounts(DOCUMENTS(j.target), db.documents, b.documents, j.target, j.env(9));
  }

  /** After a successful import every row of the document is counted once as
      imported or skipped; in the two trees, every distinct id. */
  lemma ImportCounts(db: Db, b: Backup, j: Job)
    requires LoadAll(db, b, j).err == OK
    ensures var c := LoadAll(db, b, j).counts;
            && Total(c.suppliers) == |b.suppliers| && Total(c.locations) == |IdSet(b.locations)|
            && Total(c.categories) == |IdSet(b.categories)| && Total(c.assets) == |b.assets|
            && Total(c.assignments) == |b.assignments| && Total(c.consumables) == |b.consumables|
            && Total(c.licenses) == |b.licenses| && Total(c.policies) == |b.policies|
            && Total(c.links) == |b.links| && Total(c.documents) == |b.documents|
  {
    hide LoadAll, PartsOf, IdSet;
    LoadAllJoins(db, b, j);
    RecordCounts(db, b, j);
    TreeCounts(db, b, j);
    AttachmentCounts(db, b, j);
  }

  // ---- what an import stores

  /** The seven loads of records: the rows of each collection, prepared, into its table. */
  ghost predicate LoadsRecords(a: Db, n: Db, b: Backup, j: Job) {
    && Loads(SUPPLIERS, SCRUB_SUPPLIER, a.suppliers, n.suppliers, b.suppliers, j.target, j.overwrite, j.env(0))
    && Loads(LOCATIONS, SCRUB_LOCATION, a.locations, n.locations, Order(b.locations, LOCATION_UP), j.target,
             j.overwrite, j.env(1))
    && Loads(CATEGORIES, KEEP_CATEGORY, a.categories, n.categories, Order(b.categories, CATEGORY_UP), j.target,
             j.overwrite, j.env(2))
    && Loads(ASSETS, DEFAULT_ASSET, a.assets, n.assets, b.assets, j.target, j.overwrite, j.env(3))
    && Loads(CONSUMABLES, KEEP_CONSUMABLE, a.consumables, n.consumables, b.consumables, j.target, j.overwrite,
             j.env(5))
    && Loads(LICENSES, DEFAULT_LICENSE, a.licenses, n.licenses, b.licenses, j.target, j.overwrite, j.env(6))
    && Loads(POLICIES, DEFAULT_POLICY, a.policies, n.policies, b.policies, j.target, j.overwrite, j.env(7))
  }

  lemma LoadAllStores(db: Db, b: Backup, j: Job)
    requires LoadAll(db, b, j).err == OK
    ensures LoadsRecords(db, LoadAll(db, b, j).db, b, j)
  {
    LoadAllJoins(db, b, j);
    hide LoadAll, LoadRows, InsertRows, Order, Loads;
    LoadLoads(SUPPLIERS, SCRUB_SUPPLIER, db.suppliers, b.suppliers, j.target, j.overwrite, j.env(0));
    LoadLoads(LOCATIONS, SCRUB_LOCATION, db.locations, Order(b.locations, LOCATION_UP), j.target, j.overwrite,
              j.env(1));
    LoadLoads(CATEGORIES, KEEP_CATEGORY, db.categories, Order(b.categories, CATEGORY_UP), j.target, j.overwrite,
              j.env(2));
    LoadLoads(ASSETS, DEFAULT_ASSET, db.assets, b.assets, j.target, j.overwrite, j.env(3));
    LoadLoads(CONSUMABLES, KEEP_CONSUMABLE, db.consumables, b.consumables, j.target, j.overwrite, j.env(5));
    LoadLoads(LICENSES, DEFAULT_LICENSE, db.licenses, b.licenses, j.target, j.overwrite, j.env(6));
    LoadLoads(POLICIES, DEFAULT_POLICY, db.policies, b.policies, j.target, j.overwrite, j.env(7));
  }

  /** After an import that reports no fault: for each of the seven record collections, from what
      the wipe left (or what was there), every id the document carries is stored as the mode
      says, under fresh ids if the document is another tenant's; all other rows are as they were. */
  lemma ImportStores(db: Db, b: Backup, q: Request, env: nat -> Env, mint: nat -> string, l: Listing, f: Stops)
    requires Import(db, b, q, env, mint, l, f).fault == NoFault
    ensures var w := if q.full then WipeUntil(db, Target(q), l, f).db else db;
      var source := if b.tenant != "" && b.tenant != Target(q) then Remap.Remapped(b, mint) else b;
      LoadsRecords(w, Import(db, b, q, env, mint, l, f).db, source, Job(Target(q), q.mode == "overwrite", env))
  {
    hide LoadAll, WipeUntil, Valid, Remap.Remapped, LoadsRecords;
    LoadAllStores(if q.full then WipeUntil(db, Target(q), l, f).db else db, Source(b, Target(q), mint), JobOf(q, env));
  }

  /** What an import adds of attachments: documents whose bytes already are where the row says, in
      the tenant's part of the object store or, for the same tenant, in paperless; the history of
      assets that the import itself created; and policy links of the document. */
  lemma ImportAdmits(db: Db, b: Backup, j: Job, x: string)
    requires LoadAll(db, b, j).err == OK
    ensures var n := LoadAll(db, b, j).db;
      && (x in n.documents && x !in db.documents ==> exists r <- b.documents ::
            && n.documents[x].body == r.body && n.documents[x].tenant == j.target
            && (|| "tenants/" + j.target + "/" <= r.body.key
                || (r.body.paperless != "" && r.tenant == j.target && r.body.key == "paperless:" + r.body.paperless)))
      && (x in n.assignments && x !in db.assignments && n.assignments[x].body.asset != "" ==>
            && n.assignments[x].tenant == j.target && n.assignments[x].body.asset !in db.assets
            && Has(n.assets, j.target, n.assignments[x].body.asset))
      && (x in n.links && x !in db.links ==> exists r <- b.links ::
            n.links[x].body == r.body && n.links[x].tenant == j.target)
  {
    LoadAllJoins(db, b, j);
    var n, made := LoadAll(db, b, j).db, PartsOf(db, b, j).assets.made;
    hide LoadAll, LoadRows, InsertRows, Order;
    if x in n.documents && x !in db.documents {
      InsertAdmits(DOCUMENTS(j.target), db.documents, b.documents, j.target, j.env(9), x);
    }
    if x in n.assignments && x !in db.assignments {
      InsertAdmits(ASSIGNMENTS(made), db.assignments, b.assignments, j.target, j.env(4), x);
      LoadMakesNew(ASSETS, DEFAULT_ASSET, db.assets, b.assets, j.target, j.overwrite, j.env(3),
                   n.assignments[x].body.asset);
    }
    if x in n.links && x !in db.links {
      InsertAdmits(LINKS, db.links, b.links, j.target, j.env(8), x);
    }
  }

  /** No contact comes in with an import: a supplier or location that the import wrote has none. */
  lemma ImportScrubs(db: Db, b: Backup, j: Job, x: string)
    requires LoadAll(db, b, j).err == OK
    ensures var n := LoadAll(db, b, j).db;
      && (x in n.suppliers ==> (x in db.suppliers && n.suppliers[x] == db.suppliers[x])
                               || n.suppliers[x].body.contact == NO_CONTACT)
      && (x in n.locations ==> (x in db.locations && n.locations[x] == db.locations[x])
                               || n.locations[x].body.contact == NO_CONTACT)
  {
    LoadAllJoins(db, b, j);
    hide LoadAll, InsertRows, Order;
    LoadPrepares(SUPPLIERS, SCRUB_SUPPLIER, db.suppliers, b.suppliers, j.target, j.overwrite, j.env(0), x,
                 (s: Supplier) => s.contact == NO_CONTACT);
    LoadPrepares(LOCATIONS, SCRUB_LOCATION, db.locations, Order(b.locations, LOCATION_UP), j.target, j.overwrite,
                 j.env(1), x, (l: Location) => l.contact == NO_CONTACT);
    hide LoadRows;
  }

  // ---- importing twice

  /** Every consumable and license carries an id; the other records must (Valid). */
  ghost predicate Identified(b: Backup) {
    && (forall r <- b.consumables :: r.id != "")
    && (forall r <- b.licenses :: r.id != "")
  }

  ghost predicate AllQuiet(j: Job) { forall i: nat :: Quiet(j.env(i)) }

  /** Ids minted for links and documents are new, as those of NewID are. */
  ghost predicate AttachesNew(db: Db, b: Backup, j: Job) {
    && MintsNew(LINKS, db.links, b.links, j.target, j.env(8))
    && MintsNew(DOCUMENTS(j.target), db.documents, b.documents, j.target, j.env(9))
  }

  predicate NothingImported(c: Counts) {
    && c.suppliers.imported == 0 && c.locations.imported == 0 && c.categories.imported == 0 && c.assets.imported == 0
    && c.assignments.imported == 0 && c.consumables.imported == 0 && c.licenses.imported == 0
    && c.policies.imported == 0 && c.links.imported == 0 && c.documents.imported == 0
  }

  lemma OrderedIds<B>(rows: seq<Row<B>>, up: B -> string)
    requires forall r <- rows :: r.id != ""
    ensures forall r <- Order(rows, up) :: r.id != ""
  {
    EveryIdOnce(rows, up);
  }

  lemma RecordsAgain(db: Db, b: Backup, j: Job, again: Job)
    requires Valid(b) && AllOK(PartsOf(db, b, j)) && !j.overwrite
    requires again.target == j.target && !again.overwrite && AllQuiet(again)
    ensures var p := PartsOf(db, b, j);
            var p' := PartsOf(Joined(p).db, b, again);
            && p'.suppliers == Load(p.suppliers.table, {}, 0, |b.suppliers|, OK)
            && p'.locations == Load(p.locations.table, {}, 0, |Order(b.locations, LOCATION_UP)|, OK)
            && p'.categories == Load(p.categories.table, {}, 0, |Order(b.categories, CATEGORY_UP)|, OK)
            && p'.assets == Load(p.assets.table, {}, 0, |b.assets|, OK)
            && p'.policies == Load(p.policies.table, {}, 0, |b.policies|, OK)
  {
    OrderedIds(b.locations, LOCATION_UP);
    OrderedIds(b.categories, CATEGORY_UP);
    hide LoadRows, InsertRows, Order, Quiet;
    var t := j.target;
    LoadAgain(SUPPLIERS, SCRUB_SUPPLIER, db.suppliers, b.suppliers, t, j.env(0), again.env(0));
    LoadAgain(LOCATIONS, SCRUB_LOCATION, db.locations, Order(b.locations, LOCATION_UP), t, j.env(1), again.env(1));
    LoadAgain(CATEGORIES, KEEP_CATEGORY, db.categories, Order(b.categories, CATEGORY_UP), t, j.env(2), again.env(2));
    LoadAgain(ASSETS, DEFAULT_ASSET, db.assets, b.assets, t, j.env(3), again.env(3));
    LoadAgain(POLICIES, DEFAULT_POLICY, db.policies, b.policies, t, j.env(7), again.env(7));
  }

  lemma AttachmentsAgain(db: Db, b: Backup, j: Job, again: Job)
    requires AllOK(PartsOf(db, b, j)) && AttachesNew(db, b, j)
    requires again.target == j.target && AllQuiet(again)
    requires PartsOf(Joined(PartsOf(db, b, j)).db, b, again).assets.made == {}
    ensures var p := PartsOf(db, b, j);
            var p' := PartsOf(Joined(p).db, b, again);
            && p'.assignments == Load(p.assignments.table, {}, 0, |b.assignments|, OK)
            && p'.links == Load(p.links.table, {}, 0, |b.links|, OK)
            && p'.documents == Load(p.documents.table, {}, 0, |b.documents|, OK)
  {
    hide LoadRows, InsertRows, Quiet, MintsNew;
    var p := PartsOf(db, b, j);
    InsertNothing(ASSIGNMENTS({}), p.assignments.table, b.assignments, j.target, again.env(4));
    InsertAgain(LINKS, db.links, b.links, j.target, j.env(8), again.env(8));
    InsertAgain(DOCUMENTS(j.target), db.documents, b.documents, j.target, j.env(9), again.env(9));
  }

  /** Skip mode is idempotent: after one success the same document imports nothing
      and changes nothing, as long as consumables and licenses carry ids. */
  lemma ImportAgain(db: Db, b: Backup, j: Job, again: Job)
    requires Valid(b) && Identified(b) && !j.overwrite && LoadAll(db, b, j).err == OK && AttachesNew(db, b, j)
    requires again.target == j.target && !again.overwrite && AllQuiet(again)
    ensures var once := LoadAll(db, b, j).db;
            var twice := LoadAll(once, b, again);
            twice.db == once && twice.err == OK && NothingImported(twice.counts)
  {
    LoadAllJoins(db, b, j);
    var p := PartsOf(db, b, j);
    var once := LoadAll(db, b, j).db;
    RecordsAgain(db, b, j, again);
    AttachmentsAgain(db, b, j, again);
    LoadAllJoins(once, b, again);
    hide LoadRows, InsertRows, Order, LoadAll, AttachesNew, Valid;
    assert Quiet(again.env(5)) && Quiet(again.env(6));
    hide Quiet;
    LoadAgain(CONSUMABLES, KEEP_CONSUMABLE, db.consumables, b.consumables, j.target, j.env(5), again.env(5));
    LoadAgain(LICENSES, DEFAULT_LICENSE, db.licenses, b.licenses, j.target, j.env(6), again.env(6));
  }

  /** Validate does not ask consumables and licenses for an id, and the promise
      depends on it: the repeat imports nothing exactly when they all have one. */
  lemma ImportAgainExactly(db: Db, b: Backup, j: Job, again: Job)
    requires Valid(b) && !j.overwrite && LoadAll(db, b, j).err == OK && AttachesNew(db, b, j)
    requires again.target == j.target && !again.overwrite && AllQuiet(again)
    requires "" !in db.consumables && "" !in db.licenses
    requires forall i: nat :: MintsIds(j.env(i)) && MintsIds(again.env(i))
    ensures var twice := LoadAll(LoadAll(db, b, j).db, b, again);
            twice.err == OK && NothingImported(twice.counts) <==> Identified(b)
  {
    if Identified(b) {
      ImportAgain(db, b, j, again);
    } else {
      LoadAllJoins(db, b, j);
      var once := LoadAll(db, b, j).db;
      LoadAllJoins(once, b, again);
      assert MintsIds(j.env(5)) && MintsIds(j.env(6)) && MintsIds(again.env(5)) && MintsIds(again.env(6));
      hide LoadRows, InsertRows, Order, LoadAll, AttachesNew, Valid, MintsIds;
      LoadWithoutId(CONSUMABLES, KEEP_CONSUMABLE, db.consumables, b.consumables, j.target, j.env(5));
      LoadWithoutId(LICENSES, DEFAULT_LICENSE, db.licenses, b.licenses, j.target, j.env(6));
      LoadWithoutId(CONSUMABLES, KEEP_CONSUMABLE, once.consumables, b.consumables, j.target, again.env(5));
      LoadWithoutId(LICENSES, DEFAULT_LICENSE, once.licenses, b.licenses, j.target, again.env(6));
    }
  }
}
