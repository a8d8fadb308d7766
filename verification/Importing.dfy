/** The import of a backup: gate, validation, optional wipe, optional remap, then
    ten collections loaded in foreign-key order. */
module Importing {
  import opened Store
  import opened Archive
  import opened Ordering
  import opened Wipe
  import opened Loading
  import opened Attaching
  import Remap

  // ---- preparation of the rows as they are loaded

  const SCRUB_SUPPLIER: Supplier -> Supplier := (s: Supplier) => s.(contact := NO_CONTACT)
  const SCRUB_LOCATION: Location -> Location := (l: Location) => l.(contact := NO_CONTACT)
  const KEEP_CATEGORY: Category -> Category := (c: Category) => c
  const DEFAULT_ASSET: Asset -> Asset := (a: Asset) => a.(status := if a.status == "" then "deployable" else a.status)
  const KEEP_CONSUMABLE: Consumable -> Consumable := (c: Consumable) => c
  const DEFAULT_LICENSE: License -> License := (l: License) => l.(status := Active(l.status))
  const DEFAULT_POLICY: Policy -> Policy := (p: Policy) => p.(status := Active(p.status))

  // ---- the ten loads

  datatype Count = Count(imported: nat, skipped: nat)
  datatype Counts = Counts(suppliers: Count, locations: Count, categories: Count, assets: Count, assignments: Count,
                           consumables: Count, licenses: Count, policies: Count, links: Count, documents: Count)
  const NO_COUNTS := var z := Count(0, 0); Counts(z, z, z, z, z, z, z, z, z, z)

  /** Where an import got to; made holds the assets it created. */
  datatype Progress = Progress(db: Db, counts: Counts, made: set<string>, err: Err)

  /** Where to load, whether to overwrite, and the outside world for each of the ten loads. */
  datatype Job = Job(target: string, overwrite: bool, env: nat -> Env)

  function Tally<B>(l: Load<B>): Count { Count(l.imported, l.skipped) }

  function LoadSuppliers(s: Progress, b: Backup, j: Job): Progress {
    if s.err != OK then s
    else
      var l := LoadRows(SUPPLIERS, SCRUB_SUPPLIER, s.db.suppliers, b.suppliers, j.target, j.overwrite, j.env(0));
      s.(db := s.db.(suppliers := l.table), counts := s.counts.(suppliers := Tally(l)), err := l.err)
  }

  function LoadLocations(s: Progress, b: Backup, j: Job): Progress {
    if s.err != OK then s
    else
      var l := LoadRows(LOCATIONS, SCRUB_LOCATION, s.db.locations, Order(b.locations, LOCATION_UP), j.target,
                        j.overwrite, j.env(1));
      s.(db := s.db.(locations := l.table), counts := s.counts.(locations := Tally(l)), err := l.err)
  }

  function LoadCategories(s: Progress, b: Backup, j: Job): Progress {
    if s.err != OK then s
    else
      var l := LoadRows(CATEGORIES, KEEP_CATEGORY, s.db.categories, Order(b.categories, CATEGORY_UP), j.target,
                        j.overwrite, j.env(2));
      s.(db := s.db.(categories := l.table), counts := s.counts.(categories := Tally(l)), err := l.err)
  }

  function LoadAssets(s: Progress, b: Backup, j: Job): Progress {
    if s.err != OK then s
    else
      var l := LoadRows(ASSETS, DEFAULT_ASSET, s.db.assets, b.assets, j.target, j.overwrite, j.env(3));
      s.(db := s.db.(assets := l.table), counts := s.counts.(assets := Tally(l)), made := l.made, err := l.err)
  }

  function LoadAssignments(s: Progress, b: Backup, j: Job): Progress {
    if s.err != OK then s
    else
      var l := InsertRows(ASSIGNMENTS(s.made), s.db.assignments, b.assignments, j.target, j.env(4));
      s.(db := s.db.(assignments := l.table), counts := s.counts.(assignments := Tally(l)), err := l.err)
  }

  function LoadConsumables(s: Progress, b: Backup, j: Job): Progress {
    if s.err != OK then s
    else
      var l := LoadRows(CONSUMABLES, KEEP_CONSUMABLE, s.db.consumables, b.consumables, j.target, j.overwrite, j.env(5));
      s.(db := s.db.(consumables := l.table), counts := s.counts.(consumables := Tally(l)), err := l.err)
  }

  function LoadLicenses(s: Progress, b: Backup, j: Job): Progress {
    if s.err != OK then s
    else
      var l := LoadRows(LICENSES, DEFAULT_LICENSE, s.db.licenses, b.licenses, j.target, j.overwrite, j.env(6));
      s.(db := s.db.(licenses := l.table), counts := s.counts.(licenses := Tally(l)), err := l.err)
  }

  function LoadPolicies(s: Progress, b: Backup, j: Job): Progress {
    if s.err != OK then s
    else
      var l := LoadRows(POLICIES, DEFAULT_POLICY, s.db.policies, b.policies, j.target, j.overwrite, j.env(7));
      s.(db := s.db.(policies := l.table), counts := s.counts.(policies := Tally(l)), err := l.err)
  }

  function LoadLinks(s: Progress, b: Backup, j: Job): Progress {
    if s.err != OK then s
    else
      var l := InsertRows(LINKS, s.db.links, b.links, j.target, j.env(8));
      s.(db := s.db.(links := l.table), counts := s.counts.(links := Tally(l)), err := l.err)
  }

  function LoadDocuments(s: Progress, b: Backup, j: Job): Progress {
    if s.err != OK then s
    else
      var l := InsertRows(DOCUMENTS(j.target), s.db.documents, b.documents, j.target, j.env(9));
      s.(db := s.db.(documents := l.table), counts := s.counts.(documents := Tally(l)), err := l.err)
  }

  function Begin(db: Db): Progress { Progress(db, NO_COUNTS, {}, OK) }

  function LoadRecords(db: Db, b: Backup, j: Job): Progress {
    LoadAssets(LoadCategories(LoadLocations(LoadSuppliers(Begin(db), b, j), b, j), b, j), b, j)
  }

  function LoadRest(s: Progress, b: Backup, j: Job): Progress {
    LoadPolicies(LoadLicenses(LoadConsumables(LoadAssignments(s, b, j), b, j), b, j), b, j)
  }

  function LoadAll(db: Db, b: Backup, j: Job): Progress {
    LoadDocuments(LoadLinks(LoadRest(LoadRecords(db, b, j), b, j), b, j), b, j)
  }

  // ---- the import

  /** Who asks for what. */
  datatype Request = Request(caller: string, admin: bool, mode: string, tenant: string, full: bool)

  datatype Fault = NoFault | Denied | BadDocument | StoreError(err: Err)

  datatype Result = Result(db: Db, counts: Counts, deleted: nat, fault: Fault)

  function Target(q: Request): string { if q.tenant == "" then q.caller else q.tenant }

  predicate Allowed(q: Request) {
    q.caller != "" && ((Target(q) != q.caller || q.full) ==> q.admin)
  }

  function JobOf(q: Request, env: nat -> Env): Job { Job(Target(q), q.mode == "overwrite", env) }

  /** A document of another tenant is loaded under fresh ids. */
  function Source(b: Backup, target: string, mint: nat -> string): Backup {
    if b.tenant != "" && b.tenant != target then Remap.Remapped(b, mint) else b
  }

  function FaultOf(err: Err): Fault { if err == OK then NoFault else StoreError(err) }

  function Import(db: Db, b: Backup, q: Request, env: nat -> Env, mint: nat -> string, l: Listing, f: Stops): Result {
    if !Allowed(q) then Result(db, NO_COUNTS, 0, Denied)
    else if !Valid(b) then Result(db, NO_COUNTS, 0, BadDocument)
    else
      var w := if q.full then WipeUntil(db, Target(q), l, f) else Sweep(db, 0, OK);
      if w.err != OK then Result(w.db, NO_COUNTS, w.n, FaultOf(w.err))
      else
        var s := LoadAll(w.db, Source(b, Target(q), mint), JobOf(q, env));
        Result(s.db, s.counts, w.n, FaultOf(s.err))
  }

  /** An import is denied exactly when the caller has no tenant, or asks for a wipe or for another
      tenant without being a platform administrator; nothing is then written or deleted. */
  lemma DeniedExactly(db: Db, b: Backup, q: Request, env: nat -> Env, mint: nat -> string, l: Listing, f: Stops)
    ensures var r := Import(db, b, q, env, mint, l, f);
      && (r.fault == Denied <==>
            q.caller == "" || (!q.admin && (q.full || (q.tenant != "" && q.tenant != q.caller))))
      && (r.fault == Denied || r.fault == BadDocument ==> r == Result(db, NO_COUNTS, 0, r.fault))
  {
    hide LoadAll, WipeUntil, Valid, Source;
  }

  /** What is wrong with a document. */
  ghost predicate Defective(b: Backup) {
    || b.version != 1
    || |b.suppliers| > 200000 || |b.locations| > 200000 || |b.categories| > 200000 || |b.assets| > 200000
    || |b.assignments| > 200000 || |b.consumables| > 200000 || |b.licenses| > 200000 || |b.policies| > 200000
    || |b.links| > 200000 || |b.documents| > 200000
    || (exists r <- b.assets :: r.id == "" || r.body.tag == "")
    || (exists r <- b.suppliers :: r.id == "" || r.body.name == "")
    || (exists r <- b.locations :: r.id == "" || r.body.name == "")
    || (exists r <- b.categories :: r.id == "" || r.body.name == "")
    || (exists r <- b.policies :: r.id == "" || r.body.number == "")
  }

  /** A document is refused exactly when it is of another version, has too many rows, or has a
      record without its id or unique column. */
  lemma BadExactly(db: Db, b: Backup, q: Request, env: nat -> Env, mint: nat -> string, l: Listing, f: Stops)
    ensures var r := Import(db, b, q, env, mint, l, f); r.fault == BadDocument <==> r.fault != Denied && Defective(b)
  {
    hide LoadAll, WipeUntil, Valid, Defective, Source, Allowed;
    ValidExactly(b);
  }

  lemma ValidExactly(b: Backup)
    ensures Valid(b) <==> !Defective(b)
  {
  }

  /** The import on the store. */
  method ImportInto(mem: Mem, b: Backup, q: Request, env: nat -> Env, mint: nat -> string, f: Stops)
    returns (counts: Counts, deleted: nat, fault: Fault, l: Listing)
    requires KeyedAll(mem.Contents())
    modifies mem
    ensures q.full && Allowed(q) && Valid(b) ==> ListsAll(l, old(mem.Contents()), Target(q))
    ensures Result(mem.Contents(), counts, deleted, fault) == Import(old(mem.Contents()), b, q, env, mint, l, f)
  {
    hide Keyed, Lists, LoadRows, InsertRows, Order, WipeUntil, Remap.Remapped, Valid;
    counts, deleted, fault, l := NO_COUNTS, 0, NoFault, Listing([], [], [], [], [], [], []);
    if !Allowed(q) {
      fault := Denied;
      return;
    }
    if !Valid(b) {
      fault := BadDocument;
      return;
    }
    var err := OK;
    if q.full {
      deleted, err, l := WipeTenant(mem, Target(q), f);
      if err != OK {
        fault := StoreError(err);
        return;
      }
    }
    var source := b;
    if b.tenant != "" && b.tenant != Target(q) {
      source := Remap.RemapBackup(b, mint);
    }
    counts, err := LoadInto(mem, source, JobOf(q, env));
    fault := FaultOf(err);
  }

  method LoadInto(mem: Mem, b: Backup, j: Job) returns (counts: Counts, err: Err)
    modifies mem
    ensures mem.Contents() == LoadAll(old(mem.Contents()), b, j).db
    ensures counts == LoadAll(old(mem.Contents()), b, j).counts && err == LoadAll(old(mem.Contents()), b, j).err
  {
    hide LoadRows, InsertRows, Order;
    counts := NO_COUNTS;
    ghost var db := mem.Contents();
    var suppliers := LoadTable(SUPPLIERS, SCRUB_SUPPLIER, mem.suppliers, b.suppliers, j.target, j.overwrite, j.env(0));
    mem.suppliers, counts, err := suppliers.table, counts.(suppliers := Tally(suppliers)), suppliers.err;
    ghost var s1 := LoadSuppliers(Begin(db), b, j);
    assert mem.Contents() == s1.db && counts == s1.counts && err == s1.err;
    if err != OK { return; }
    var ls := OrderRows(b.locations, LOCATION_UP);
    var locations := LoadTable(LOCATIONS, SCRUB_LOCATION, mem.locations, ls, j.target, j.overwrite, j.env(1));
    mem.locations, counts, err := locations.table, counts.(locations := Tally(locations)), locations.err;
    ghost var s2 := LoadLocations(s1, b, j);
    assert mem.Contents() == s2.db && counts == s2.counts && err == s2.err;
    if err != OK { return; }
    var cs := OrderRows(b.categories, CATEGORY_UP);
    var categories := LoadTable(CATEGORIES, KEEP_CATEGORY, mem.categories, cs, j.target, j.overwrite, j.env(2));
    mem.categories, counts, err := categories.table, counts.(categories := Tally(categories)), categories.err;
    ghost var s3 := LoadCategories(s2, b, j);
    assert mem.Contents() == s3.db && counts == s3.counts && err == s3.err;
    if err != OK { return; }
    var assets := LoadTable(ASSETS, DEFAULT_ASSET, mem.assets, b.assets, j.target, j.overwrite, j.env(3));
    mem.assets, counts, err := assets.table, counts.(assets := Tally(assets)), assets.err;
    ghost var s4 := LoadAssets(s3, b, j);
    assert s4 == LoadRecords(db, b, j);
    assert mem.Contents() == s4.db && counts == s4.counts && err == s4.err && assets.made == s4.made;
    if err != OK { return; }
    hide LoadRecords;
    counts, err := LoadOthersInto(mem, b, j, counts, assets.made, s4);
  }

  method LoadOthersInto(mem: Mem, b: Backup, j: Job, counts0: Counts, made: set<string>, ghost s4: Progress)
    returns (counts: Counts, err: Err)
    requires s4 == Progress(mem.Contents(), counts0, made, OK)
    modifies mem
    ensures var s := LoadDocuments(LoadLinks(LoadRest(s4, b, j), b, j), b, j);
            mem.Contents() == s.db && counts == s.counts && err == s.err
  {
    hide LoadRows, InsertRows;
    counts := counts0;
    var assignments := InsertTable(ASSIGNMENTS(made), mem.assignments, b.assignments, j.target, j.env(4));
    mem.assignments, counts, err := assignments.table, counts.(assignments := Tally(assignments)), assignments.err;
    ghost var s5 := LoadAssignments(s4, b, j);
    assert mem.Contents() == s5.db && counts == s5.counts && err == s5.err;
    if err != OK { return; }
    var consumables := LoadTable(CONSUMABLES, KEEP_CONSUMABLE, mem.consumables, b.consumables, j.target, j.overwrite,
                                 j.env(5));
    mem.consumables, counts, err := consumables.table, counts.(consumables := Tally(consumables)), consumables.err;
    ghost var s6 := LoadConsumables(s5, b, j);
    assert mem.Contents() == s6.db && counts == s6.counts && err == s6.err;
    if err != OK { return; }
    var licenses := LoadTable(LICENSES, DEFAULT_LICENSE, mem.licenses, b.licenses, j.target, j.overwrite, j.env(6));
    mem.licenses, counts, err := licenses.table, counts.(licenses := Tally(licenses)), licenses.err;
    ghost var s7 := LoadLicenses(s6, b, j);
    assert mem.Contents() == s7.db && counts == s7.counts && err == s7.err;
    if err != OK { return; }
    var policies := LoadTable(POLICIES, DEFAULT_POLICY, mem.policies, b.policies, j.target, j.overwrite, j.env(7));
    mem.policies, counts, err := policies.table, counts.(policies := Tally(policies)), policies.err;
    ghost var s8 := LoadPolicies(s7, b, j);
    assert mem.Contents() == s8.db && counts == s8.counts && err == s8.err;
    if err != OK { return; }
    counts, err := LoadLinkedInto(mem, b, j, counts, s8);
  }

  method LoadLinkedInto(mem: Mem, b: Backup, j: Job, counts0: Counts, ghost s8: Progress)
    returns (counts: Counts, err: Err)
    requires s8.db == mem.Contents() && s8.counts == counts0 && s8.err == OK
    modifies mem
    ensures var s := LoadDocuments(LoadLinks(s8, b, j), b, j);
            mem.Contents() == s.db && counts == s.counts && err == s.err
  {
    hide LoadRows, InsertRows;
    counts := counts0;
    var links := InsertTable(LINKS, mem.links, b.links, j.target, j.env(8));
    mem.links, counts, err := links.table, counts.(links := Tally(links)), links.err;
    ghost var s9 := LoadLinks(s8, b, j);
    assert mem.Contents() == s9.db && counts == s9.counts && err == s9.err;
    if err != OK { return; }
    var documents := InsertTable(DOCUMENTS(j.target), mem.documents, b.documents, j.target, j.env(9));
    mem.documents, counts, err := documents.table, counts.(documents := Tally(documents)), documents.err;
  }
}
