/** The wipe of a tenant before a full restore: seven collections deleted row by
    row, children before parents in the two trees. */
module Wipe {
  import opened Store
  import opened Ordering
  import Forest
  import Seqs

  // ---- deleting a list of ids

  /** Where a sequence of deletions got to: the database, how many rows went, and why it stopped. */
  datatype Sweep = Sweep(db: Db, n: nat, err: Err)

  function IdSeq<B>(rows: seq<Row<B>>): (ids: seq<string>)
    ensures |ids| == |rows| && forall i :: 0 <= i < |rows| ==> ids[i] == rows[i].id
  {
    seq(|rows|, i requires 0 <= i < |rows| => rows[i].id)
  }

  function SetOf(ids: seq<string>): set<string> { set x | x in ids }

  ghost predicate NoDup(ids: seq<string>) { forall i, j :: 0 <= i < j < |ids| ==> ids[i] != ids[j] }

  function DeleteEach(db: Db, c: Collection, tenant: string, ids: seq<string>): Sweep {
    if ids == [] then Sweep(db, 0, OK)
    else
      var before := DeleteEach(db, c, tenant, ids[..|ids| - 1]);
      if before.err != OK then before
      else
        var r := Delete(before.db, c, tenant, ids[|ids| - 1]);
        Sweep(r.value, if r.err == OK then before.n + 1 else before.n, r.err)
  }

  lemma CascadesTwice(db: Db, tenant: string, kind: string, a: set<string>, b: set<string>)
    ensures DropLinks(DropLinks(db.links, tenant, a, {}), tenant, b, {}) == DropLinks(db.links, tenant, a + b, {})
    ensures DropLinks(DropLinks(db.links, tenant, {}, a), tenant, {}, b) == DropLinks(db.links, tenant, {}, a + b)
    ensures DropDocuments(DropDocuments(db.documents, tenant, kind, a), tenant, kind, b) ==
      DropDocuments(db.documents, tenant, kind, a + b)
    ensures DropAssignments(DropAssignments(db.assignments, tenant, a), tenant, b) ==
      DropAssignments(db.assignments, tenant, a + b)
  {}

  lemma ClearCategoryTwice(t: Table<Consumable>, tenant: string, a: set<string>, b: set<string>)
    ensures ClearCategory(ClearCategory(t, tenant, a), tenant, b) == ClearCategory(t, tenant, a + b)
  {}

  lemma ClearLocationTwice(t: Table<Consumable>, tenant: string, a: set<string>, b: set<string>)
    ensures ClearLocation(ClearLocation(t, tenant, a), tenant, b) == ClearLocation(t, tenant, a + b)
  {}

  lemma ClearSupplierTwice(t: Table<Consumable>, tenant: string, a: set<string>, b: set<string>)
    ensures ClearSupplier(ClearSupplier(t, tenant, a), tenant, b) == ClearSupplier(t, tenant, a + b)
  {}

  lemma ClearAssetSupplierTwice(t: Table<Asset>, tenant: string, a: set<string>, b: set<string>)
    ensures ClearAssetSupplier(ClearAssetSupplier(t, tenant, a), tenant, b) == ClearAssetSupplier(t, tenant, a + b)
  {}

  lemma ClearLicenseSupplierTwice(t: Table<License>, tenant: string, a: set<string>, b: set<string>)
    ensures ClearLicenseSupplier(ClearLicenseSupplier(t, tenant, a), tenant, b) ==
      ClearLicenseSupplier(t, tenant, a + b)
  {}

  lemma DropNone(db: Db, c: Collection, tenant: string)
    ensures Drop(db, c, tenant, {}) == db
  {
    var none: set<string> := {};
    assert DropLinks(db.links, tenant, none, none) == db.links;
    assert DropAssignments(db.assignments, tenant, none) == db.assignments;
    assert forall kind :: DropDocuments(db.documents, tenant, kind, none) == db.documents;
    var d := Drop(db, c, tenant, none);
    assert d.assets == db.assets && d.consumables == db.consumables && d.licenses == db.licenses;
  }

  lemma MinusTwice<B>(t: Table<B>, a: set<string>, b: set<string>)
    ensures t - a - b == t - (a + b)
  {}

  lemma DropTwice(db: Db, c: Collection, tenant: string, a: set<string>, b: set<string>)
    ensures Drop(Drop(db, c, tenant, a), c, tenant, b) == Drop(db, c, tenant, a + b)
  {
    hide DropLinks, DropDocuments, DropAssignments;
    hide ClearCategory, ClearLocation, ClearSupplier, ClearAssetSupplier, ClearLicenseSupplier;
    match c {
      case Policies => CascadesTwice(db, tenant, "", a, b); MinusTwice(db.policies, a, b);
      case Licenses => CascadesTwice(db, tenant, ENTITY_LICENSE, a, b); MinusTwice(db.licenses, a, b);
      case Consumables => CascadesTwice(db, tenant, ENTITY_CONSUMABLE, a, b); MinusTwice(db.consumables, a, b);
      case Assets => CascadesTwice(db, tenant, ENTITY_ASSET, a, b); MinusTwice(db.assets, a, b);
      case Categories => ClearCategoryTwice(db.consumables, tenant, a, b); MinusTwice(db.categories, a, b);
      case Locations => ClearLocationTwice(db.consumables, tenant, a, b); MinusTwice(db.locations, a, b);
      case Suppliers =>
        MinusTwice(db.suppliers, a, b);
        ClearSupplierTwice(db.consumables, tenant, a, b);
        ClearAssetSupplierTwice(db.assets, tenant, a, b);
        ClearLicenseSupplierTwice(db.licenses, tenant, a, b);
    }
  }

  lemma HoldsAfterDrop(db: Db, c: Collection, tenant: string, ids: set<string>, id: string)
    requires Holds(db, c, tenant, id) && id !in ids
    ensures Holds(Drop(db, c, tenant, ids), c, tenant, id)
  {}

  /** No id of the list is blocked when its turn comes. */
  ghost predicate Clear(db: Db, c: Collection, tenant: string, ids: seq<string>) {
    forall i :: 0 <= i < |ids| ==> !Blocked(Drop(db, c, tenant, SetOf(ids[..i])), c, tenant, ids[i])
  }

  /** Deleting distinct rows one by one succeeds exactly when none is blocked in
      its turn, and then it is the same as dropping them together. */
  lemma {:induction false} DeleteEachExactly(db: Db, c: Collection, tenant: string, ids: seq<string>)
    requires NoDup(ids) && forall x <- ids :: Holds(db, c, tenant, x)
    ensures DeleteEach(db, c, tenant, ids).err == OK <==> Clear(db, c, tenant, ids)
    ensures Clear(db, c, tenant, ids) ==>
              DeleteEach(db, c, tenant, ids) == Sweep(Drop(db, c, tenant, SetOf(ids)), |ids|, OK)
  {
    hide Drop, Holds, Blocked;
    if ids == [] {
      assert SetOf(ids) == {};
      DropNone(db, c, tenant);
    } else {
      var n := |ids| - 1;
      var front := ids[..n];
      DeleteEachExactly(db, c, tenant, front);
      ClearSplits(db, c, tenant, ids);
      if Clear(db, c, tenant, front) {
        HoldsAfterDrop(db, c, tenant, SetOf(front), ids[n]);
        DropTwice(db, c, tenant, SetOf(front), {ids[n]});
        assert SetOf(ids) == SetOf(front) + {ids[n]};
      }
    }
  }

  lemma ClearSplits(db: Db, c: Collection, tenant: string, ids: seq<string>)
    requires ids != []
    ensures Clear(db, c, tenant, ids) <==>
            && Clear(db, c, tenant, ids[..|ids| - 1])
            && !Blocked(Drop(db, c, tenant, SetOf(ids[..|ids| - 1])), c, tenant, ids[|ids| - 1])
  {
    var front := ids[..|ids| - 1];
    assert forall i :: 0 <= i <= |front| ==> front[..i] == ids[..i];
    assert forall i :: 0 <= i < |front| ==> front[i] == ids[i];
  }

  // ---- other tenants

  /** What the database holds of everyone but the tenant. */
  function OfOthers(db: Db, tenant: string): Db {
    Db(Others(db.suppliers, tenant), Others(db.locations, tenant), Others(db.categories, tenant),
       Others(db.assets, tenant), Others(db.consumables, tenant), Others(db.licenses, tenant),
       Others(db.policies, tenant), Others(db.assignments, tenant), Others(db.links, tenant),
       Others(db.documents, tenant))
  }

  lemma CascadesLeaveOthers(db: Db, tenant: string, kind: string, ids: set<string>, more: set<string>)
    ensures Others(DropLinks(db.links, tenant, ids, more), tenant) == Others(db.links, tenant)
    ensures Others(DropDocuments(db.documents, tenant, kind, ids), tenant) == Others(db.documents, tenant)
    ensures Others(DropAssignments(db.assignments, tenant, ids), tenant) == Others(db.assignments, tenant)
  {}

  lemma ClearsLeaveOthers(db: Db, tenant: string, ids: set<string>)
    ensures Others(ClearCategory(db.consumables, tenant, ids), tenant) == Others(db.consumables, tenant)
    ensures Others(ClearLocation(db.consumables, tenant, ids), tenant) == Others(db.consumables, tenant)
    ensures Others(ClearSupplier(db.consumables, tenant, ids), tenant) == Others(db.consumables, tenant)
    ensures Others(ClearAssetSupplier(db.assets, tenant, ids), tenant) == Others(db.assets, tenant)
    ensures Others(ClearLicenseSupplier(db.licenses, tenant, ids), tenant) == Others(db.licenses, tenant)
  {}

  lemma MinusLeavesOthers<B>(t: Table<B>, tenant: string, id: string)
    requires Has(t, tenant, id)
    ensures Others(t - {id}, tenant) == Others(t, tenant)
  {}

  lemma DropLeavesOthers(db: Db, c: Collection, tenant: string, id: string)
    requires Holds(db, c, tenant, id)
    ensures OfOthers(Drop(db, c, tenant, {id}), tenant) == OfOthers(db, tenant)
  {
    hide DropLinks, DropDocuments, DropAssignments, Others;
    hide ClearCategory, ClearLocation, ClearSupplier, ClearAssetSupplier, ClearLicenseSupplier;
    ClearsLeaveOthers(db, tenant, {id});
    match c {
      case Policies =>
        MinusLeavesOthers(db.policies, tenant, id);
        CascadesLeaveOthers(db, tenant, "", {id}, {});
      case Licenses =>
        MinusLeavesOthers(db.licenses, tenant, id);
        CascadesLeaveOthers(db, tenant, ENTITY_LICENSE, {id}, {});
      case Consumables =>
        MinusLeavesOthers(db.consumables, tenant, id);
        CascadesLeaveOthers(db, tenant, ENTITY_CONSUMABLE, {id}, {});
      case Assets =>
        MinusLeavesOthers(db.assets, tenant, id);
        CascadesLeaveOthers(db, tenant, ENTITY_ASSET, {id}, {});
        CascadesLeaveOthers(db, tenant, ENTITY_ASSET, {}, {id});
      case Categories => MinusLeavesOthers(db.categories, tenant, id);
      case Locations => MinusLeavesOthers(db.locations, tenant, id);
      case Suppliers => MinusLeavesOthers(db.suppliers, tenant, id);
    }
  }

  /** Even a wipe that stops half way has touched nobody else's rows. */
  lemma {:induction false} DeleteEachLeavesOthers(db: Db, c: Collection, tenant: string, ids: seq<string>)
    ensures OfOthers(DeleteEach(db, c, tenant, ids).db, tenant) == OfOthers(db, tenant)
  {
    if ids != [] {
      var n := |ids| - 1;
      DeleteEachLeavesOthers(db, c, tenant, ids[..n]);
      var before := DeleteEach(db, c, tenant, ids[..n]);
      if before.err == OK && Delete(before.db, c, tenant, ids[n]).err == OK {
        DropLeavesOthers(before.db, c, tenant, ids[n]);
      }
    }
  }

  // ---- the wipe

  const CATEGORY_UP: Category -> string := (c: Category) => c.parent
  const LOCATION_UP: Location -> string := (l: Location) => l.parent

  /** The listings that drive the wipe, in whatever order the store gives them. */
  datatype Listing = Listing(policies: seq<Row<Policy>>, licenses: seq<Row<License>>, consumables: seq<Row<Consumable>>,
                             assets: seq<Row<Asset>>, categories: seq<Row<Category>>, locations: seq<Row<Location>>,
                             suppliers: seq<Row<Supplier>>)

  ghost predicate ListsAll(l: Listing, db: Db, tenant: string) {
    && Lists(l.policies, db.policies, tenant)
    && Lists(l.licenses, db.licenses, tenant)
    && Lists(l.consumables, db.consumables, tenant)
    && Lists(l.assets, db.assets, tenant)
    && Lists(l.categories, db.categories, tenant)
    && Lists(l.locations, db.locations, tenant)
    && Lists(l.suppliers, db.suppliers, tenant)
  }

  function Then(s: Sweep, c: Collection, tenant: string, ids: seq<string>): Sweep {
    if s.err != OK then s
    else
      var r := DeleteEach(s.db, c, tenant, ids);
      Sweep(r.db, s.n + r.n, r.err)
  }

  /** Leaf records first: policies, licenses, consumables and assets. */
  function WipeRecords(db: Db, tenant: string, l: Listing): Sweep {
    var s := Then(Sweep(db, 0, OK), Policies, tenant, IdSeq(l.policies));
    var s := Then(s, Licenses, tenant, IdSeq(l.licenses));
    var s := Then(s, Consumables, tenant, IdSeq(l.consumables));
    Then(s, Assets, tenant, IdSeq(l.assets))
  }

  function WipeCategories(s: Sweep, tenant: string, l: Listing): Sweep {
    Then(s, Categories, tenant, IdSeq(Reverse(Order(l.categories, CATEGORY_UP))))
  }

  function WipeLocations(s: Sweep, tenant: string, l: Listing): Sweep {
    Then(s, Locations, tenant, IdSeq(Reverse(Order(l.locations, LOCATION_UP))))
  }

  function WipeAll(db: Db, tenant: string, l: Listing): Sweep {
    var s := WipeCategories(WipeRecords(db, tenant, l), tenant, l);
    Then(WipeLocations(s, tenant, l), Suppliers, tenant, IdSeq(l.suppliers))
  }

  /** Where the store fails in a collection, if it does. */
  datatype Stop = Never | AtListing | AtDelete(i: nat)

  type Stops = Collection -> Stop

  predicate Hit(stop: Stop, n: nat) { stop.AtListing? || (stop.AtDelete? && stop.i < n) }

  /** The deletions that come before the failure. */
  function Before(ids: seq<string>, stop: Stop): seq<string> {
    if !Hit(stop, |ids|) then ids else if stop.AtListing? then [] else ids[..stop.i]
  }

  function Stage(s: Sweep, c: Collection, tenant: string, ids: seq<string>, stop: Stop): Sweep {
    var r := Then(s, c, tenant, Before(ids, stop));
    if r.err == OK && Hit(stop, |ids|) then r.(err := Failed) else r
  }

  /** The wipe, with a store that may fail anywhere. */
  function WipeUntil(db: Db, tenant: string, l: Listing, f: Stops): Sweep {
    var s := Stage(Sweep(db, 0, OK), Policies, tenant, IdSeq(l.policies), f(Policies));
    var s := Stage(s, Licenses, tenant, IdSeq(l.licenses), f(Licenses));
    var s := Stage(s, Consumables, tenant, IdSeq(l.consumables), f(Consumables));
    var s := Stage(s, Assets, tenant, IdSeq(l.assets), f(Assets));
    var s := Stage(s, Categories, tenant, IdSeq(Reverse(Order(l.categories, CATEGORY_UP))), f(Categories));
    var s := Stage(s, Locations, tenant, IdSeq(Reverse(Order(l.locations, LOCATION_UP))), f(Locations));
    Stage(s, Suppliers, tenant, IdSeq(l.suppliers), f(Suppliers))
  }

  lemma ThenLeavesOthers(s: Sweep, c: Collection, tenant: string, ids: seq<string>)
    ensures OfOthers(Then(s, c, tenant, ids).db, tenant) == OfOthers(s.db, tenant)
  {
    DeleteEachLeavesOthers(s.db, c, tenant, ids);
  }

  lemma StageLeavesOthers(s: Sweep, c: Collection, tenant: string, ids: seq<string>, stop: Stop)
    ensures OfOthers(Stage(s, c, tenant, ids, stop).db, tenant) == OfOthers(s.db, tenant)
  {
    hide OfOthers, Then;
    ThenLeavesOthers(s, c, tenant, Before(ids, stop));
  }

  /** Whatever the listings and wherever it stops, a wipe leaves other tenants' rows alone. */
  lemma WipeLeavesOthers(db: Db, tenant: string, l: Listing, f: Stops)
    ensures OfOthers(WipeUntil(db, tenant, l, f).db, tenant) == OfOthers(db, tenant)
  {
    hide OfOthers, Stage, Order, Reverse, IdSeq;
    var categories := IdSeq(Reverse(Order(l.categories, CATEGORY_UP)));
    var locations := IdSeq(Reverse(Order(l.locations, LOCATION_UP)));
    var s0 := Sweep(db, 0, OK);
    StageLeavesOthers(s0, Policies, tenant, IdSeq(l.policies), f(Policies));
    var s1 := Stage(s0, Policies, tenant, IdSeq(l.policies), f(Policies));
    StageLeavesOthers(s1, Licenses, tenant, IdSeq(l.licenses), f(Licenses));
    var s2 := Stage(s1, Licenses, tenant, IdSeq(l.licenses), f(Licenses));
    StageLeavesOthers(s2, Consumables, tenant, IdSeq(l.consumables), f(Consumables));
    var s3 := Stage(s2, Consumables, tenant, IdSeq(l.consumables), f(Consumables));
    StageLeavesOthers(s3, Assets, tenant, IdSeq(l.assets), f(Assets));
    var s4 := Stage(s3, Assets, tenant, IdSeq(l.assets), f(Assets));
    StageLeavesOthers(s4, Categories, tenant, categories, f(Categories));
    var s5 := Stage(s4, Categories, tenant, categories, f(Categories));
    StageLeavesOthers(s5, Locations, tenant, locations, f(Locations));
    var s6 := Stage(s5, Locations, tenant, locations, f(Locations));
    StageLeavesOthers(s6, Suppliers, tenant, IdSeq(l.suppliers), f(Suppliers));
  }

  // ---- completeness

  lemma ListedIds<B>(rows: seq<Row<B>>, t: Table<B>, tenant: string)
    requires Lists(rows, t, tenant)
    ensures NoDup(IdSeq(rows)) && SetOf(IdSeq(rows)) == IdsOf(t, tenant) && |rows| == |IdsOf(t, tenant)|
    ensures forall x <- IdSeq(rows) :: Has(t, tenant, x)
  {
    DistinctIds(rows);
    forall x <- IdSeq(rows) ensures Has(t, tenant, x) {
      assert x in SetOf(IdSeq(rows));
    }
  }

  lemma DistinctIds<B>(rows: seq<Row<B>>)
    requires Distinct(rows)
    ensures NoDup(IdSeq(rows)) && SetOf(IdSeq(rows)) == IdSet(rows) && |rows| == |IdSet(rows)|
  {
    hide Distinct, IdSet;
    forall i, j | 0 <= i < j < |rows| ensures IdSeq(rows)[i] != IdSeq(rows)[j] {
      DistinctApart(rows, i, j);
    }
    forall x ensures x in SetOf(IdSeq(rows)) <==> x in IdSet(rows) {
      InIdSet(rows, x);
      if x in IdSet(rows) {
        var i :| 0 <= i < |rows| && rows[i].id == x;
        assert IdSeq(rows)[i] == x;
      }
    }
    IdSetSize(rows);
  }

  lemma {:induction false} IdSetSize<B>(rows: seq<Row<B>>)
    requires Distinct(rows)
    ensures |rows| == |IdSet(rows)|
  {
    if rows != [] {
      IdSetSize(rows[..|rows| - 1]);
    }
  }

  /** A collection that nothing blocks goes completely. */
  lemma ThenDrops(s: Sweep, c: Collection, tenant: string, ids: seq<string>, all: set<string>)
    requires s.err == OK && c != Categories && c != Locations
    requires NoDup(ids) && SetOf(ids) == all && forall x <- ids :: Holds(s.db, c, tenant, x)
    ensures Then(s, c, tenant, ids) == Sweep(Drop(s.db, c, tenant, all), s.n + |ids|, OK)
  {
    DeleteEachExactly(s.db, c, tenant, ids);
  }

  /** Every assignment, policy link and document of the tenant hangs on a row of the tenant. */
  ghost predicate Attached(db: Db, tenant: string) {
    && (forall x <- db.assignments :: db.assignments[x].tenant == tenant ==>
        Has(db.assets, tenant, db.assignments[x].body.asset))
    && (forall x <- db.links :: db.links[x].tenant == tenant ==> Has(db.policies, tenant, db.links[x].body.policy))
    && (forall x <- db.documents :: db.documents[x].tenant == tenant ==> Owned(db, tenant, db.documents[x].body))
  }

  predicate Owned(db: Db, tenant: string, d: Document) {
    || (d.entityType == ENTITY_ASSET && Has(db.assets, tenant, d.entity))
    || (d.entityType == ENTITY_CONSUMABLE && Has(db.consumables, tenant, d.entity))
    || (d.entityType == ENTITY_LICENSE && Has(db.licenses, tenant, d.entity))
  }

  /** The database without the tenant's records, the two trees and suppliers excepted. */
  function Recordless(db: Db, tenant: string): Db {
    var d := Drop(db, Policies, tenant, IdsOf(db.policies, tenant));
    var d := Drop(d, Licenses, tenant, IdsOf(db.licenses, tenant));
    var d := Drop(d, Consumables, tenant, IdsOf(db.consumables, tenant));
    Drop(d, Assets, tenant, IdsOf(db.assets, tenant))
  }

  lemma WipeRecordsDrops(db: Db, tenant: string, l: Listing)
    requires ListsAll(l, db, tenant)
    ensures WipeRecords(db, tenant, l) ==
            Sweep(Recordless(db, tenant), |l.policies| + |l.licenses| + |l.consumables| + |l.assets|, OK)
  {
    hide Lists, IdsOf, Has, DropLinks, DropDocuments, DropAssignments, DeleteEach;
    var s0 := Sweep(db, 0, OK);
    ListedIds(l.policies, db.policies, tenant);
    ThenDrops(s0, Policies, tenant, IdSeq(l.policies), IdsOf(db.policies, tenant));
    var s1 := Then(s0, Policies, tenant, IdSeq(l.policies));
    ListedIds(l.licenses, db.licenses, tenant);
    ThenDrops(s1, Licenses, tenant, IdSeq(l.licenses), IdsOf(db.licenses, tenant));
    var s2 := Then(s1, Licenses, tenant, IdSeq(l.licenses));
    ListedIds(l.consumables, db.consumables, tenant);
    ThenDrops(s2, Consumables, tenant, IdSeq(l.consumables), IdsOf(db.consumables, tenant));
    var s3 := Then(s2, Consumables, tenant, IdSeq(l.consumables));
    ListedIds(l.assets, db.assets, tenant);
    ThenDrops(s3, Assets, tenant, IdSeq(l.assets), IdsOf(db.assets, tenant));
  }

  // ---- trees

  lemma {:induction false} ParentsFirstAt<B>(p: Forest.Parents, rows: seq<Row<B>>, j: nat)
    requires ParentsFirst(p, rows) && j < |rows| && rows[j].id in p && p[rows[j].id] in p
    ensures p[rows[j].id] in IdSet(rows[..j])
  {
    var n := |rows| - 1;
    if j < n {
      ParentsFirstAt(p, rows[..n], j);
      assert rows[..n][..j] == rows[..j];
    }
  }

  lemma {:induction false} NotParentsFirstAt<B>(p: Forest.Parents, rows: seq<Row<B>>) returns (j: nat)
    requires !ParentsFirst(p, rows)
    ensures j < |rows| && rows[j].id in p && p[rows[j].id] in p && p[rows[j].id] !in IdSet(rows[..j])
  {
    var n := |rows| - 1;
    if ParentsFirst(p, rows[..n]) {
      j := n;
    } else {
      j := NotParentsFirstAt(p, rows[..n]);
      assert rows[..n][..j] == rows[..j];
    }
  }

  /** Some row of the order that is not yet gone still has the next one as its parent. */
  ghost predicate ChildLeft<B>(rows: seq<Row<B>>, up: B -> string, k: nat)
    requires k < |rows|
  {
    exists j: nat :: j <= k && up(rows[j].body) == rows[k].id
  }

  lemma ChildLeftNever<B>(rows: seq<Row<B>>, up: B -> string, p: Forest.Parents)
    requires Distinct(rows) && p.Keys == IdSet(rows) && forall r <- rows :: r.id in p && p[r.id] == up(r.body)
    ensures ParentsFirst(p, rows) <==> forall k: nat :: k < |rows| ==> !ChildLeft(rows, up, k)
  {
    if ParentsFirst(p, rows) {
      forall k: nat | k < |rows| ensures !ChildLeft(rows, up, k) {
        if ChildLeft(rows, up, k) {
          var j: nat :| j <= k && up(rows[j].body) == rows[k].id;
          assert rows[j] in rows && rows[k] in rows;
          ParentsFirstAt(p, rows, j);
          InIdSet(rows[..j], rows[k].id);
          var i :| 0 <= i < j && rows[..j][i].id == rows[k].id;
          DistinctApart(rows, i, k);
        }
      }
    } else {
      var j := NotParentsFirstAt(p, rows);
      assert rows[j] in rows;
      InIdSet(rows, p[rows[j].id]);
      var k :| 0 <= k < |rows| && rows[k].id == p[rows[j].id];
      InIdSet(rows[..j], p[rows[j].id]);
      assert ChildLeft(rows, up, k);
    }
  }

  /** Nothing else blocks a tree: the tenant has no assets left, and its rows are those listed. */
  lemma CategoryBlocked(db: Db, tenant: string, rows: seq<Row<Category>>, k: nat)
    requires Distinct(rows) && IdSet(rows) == IdsOf(db.categories, tenant) && k < |rows|
    requires forall r <- rows :: r.id in db.categories && db.categories[r.id] == r
    requires IdsOf(db.assets, tenant) == {}
    ensures Blocked(Drop(db, Categories, tenant, SetOf(IdSeq(Reverse(rows))[..|rows| - 1 - k])), Categories, tenant,
                    rows[k].id)
       <==> ChildLeft(rows, CATEGORY_UP, k)
  {
    var gone := SetOf(IdSeq(Reverse(rows))[..|rows| - 1 - k]);
    forall j: nat | j < |rows| ensures rows[j].id in gone <==> j > k {
      GoneAt(rows, k, j);
    }
    hide SetOf, IdSeq, Reverse;
    if ChildLeft(rows, CATEGORY_UP, k) {
      CategoryBlockedBy(db, tenant, rows, k, gone);
    }
    if Blocked(Drop(db, Categories, tenant, gone), Categories, tenant, rows[k].id) {
      CategoryBlockedOnlyBy(db, tenant, rows, k, gone);
    }
  }

  lemma CategoryBlockedBy(db: Db, tenant: string, rows: seq<Row<Category>>, k: nat, gone: set<string>)
    requires IdSet(rows) == IdsOf(db.categories, tenant) && k < |rows| && ChildLeft(rows, CATEGORY_UP, k)
    requires forall r <- rows :: r.id in db.categories && db.categories[r.id] == r
    requires forall j: nat :: j < |rows| ==> (rows[j].id in gone <==> j > k)
    ensures Blocked(Drop(db, Categories, tenant, gone), Categories, tenant, rows[k].id)
  {
    hide Blocked, ClearCategory;
    var j: nat :| j <= k && rows[j].body.parent == rows[k].id;
    assert rows[j] in rows;
    InIdSet(rows, rows[j].id);
    hide IdSet;
    assert rows[j].id in IdsOf(db.categories, tenant);
    CategoryChild(Drop(db, Categories, tenant, gone), tenant, rows[j].id, rows[k].id);
  }

  lemma CategoryChild(db: Db, tenant: string, x: string, id: string)
    requires Has(db.categories, tenant, x) && db.categories[x].body.parent == id
    ensures Blocked(db, Categories, tenant, id)
  {}

  lemma CategoryBlockedOnlyBy(db: Db, tenant: string, rows: seq<Row<Category>>, k: nat, gone: set<string>)
    requires IdSet(rows) == IdsOf(db.categories, tenant) && k < |rows| && IdsOf(db.assets, tenant) == {}
    requires forall r <- rows :: r.id in db.categories && db.categories[r.id] == r
    requires forall j: nat :: j < |rows| ==> (rows[j].id in gone <==> j > k)
    requires Blocked(Drop(db, Categories, tenant, gone), Categories, tenant, rows[k].id)
    ensures ChildLeft(rows, CATEGORY_UP, k)
  {
    var d := Drop(db, Categories, tenant, gone);
    assert forall x <- d.assets :: x in IdsOf(db.assets, tenant) || d.assets[x].tenant != tenant;
    var x :| x in d.categories && d.categories[x].tenant == tenant && d.categories[x].body.parent == rows[k].id;
    assert x in IdsOf(db.categories, tenant);
    InIdSet(rows, x);
    hide IdSet;
    var j :| 0 <= j < |rows| && rows[j].id == x;
    assert rows[j] in rows;
  }

  lemma LocationBlocked(db: Db, tenant: string, rows: seq<Row<Location>>, k: nat)
    requires Distinct(rows) && IdSet(rows) == IdsOf(db.locations, tenant) && k < |rows|
    requires forall r <- rows :: r.id in db.locations && db.locations[r.id] == r
    requires IdsOf(db.assets, tenant) == {}
    ensures Blocked(Drop(db, Locations, tenant, SetOf(IdSeq(Reverse(rows))[..|rows| - 1 - k])), Locations, tenant,
                    rows[k].id)
       <==> ChildLeft(rows, LOCATION_UP, k)
  {
    var gone := SetOf(IdSeq(Reverse(rows))[..|rows| - 1 - k]);
    forall j: nat | j < |rows| ensures rows[j].id in gone <==> j > k {
      GoneAt(rows, k, j);
    }
    hide SetOf, IdSeq, Reverse;
    if ChildLeft(rows, LOCATION_UP, k) {
      LocationBlockedBy(db, tenant, rows, k, gone);
    }
    if Blocked(Drop(db, Locations, tenant, gone), Locations, tenant, rows[k].id) {
      LocationBlockedOnlyBy(db, tenant, rows, k, gone);
    }
  }

  lemma LocationBlockedBy(db: Db, tenant: string, rows: seq<Row<Location>>, k: nat, gone: set<string>)
    requires IdSet(rows) == IdsOf(db.locations, tenant) && k < |rows| && ChildLeft(rows, LOCATION_UP, k)
    requires forall r <- rows :: r.id in db.locations && db.locations[r.id] == r
    requires forall j: nat :: j < |rows| ==> (rows[j].id in gone <==> j > k)
    ensures Blocked(Drop(db, Locations, tenant, gone), Locations, tenant, rows[k].id)
  {
    hide Blocked, ClearLocation;
    var j: nat :| j <= k && rows[j].body.parent == rows[k].id;
    assert rows[j] in rows;
    InIdSet(rows, rows[j].id);
    hide IdSet;
    assert rows[j].id in IdsOf(db.locations, tenant);
    LocationChild(Drop(db, Locations, tenant, gone), tenant, rows[j].id, rows[k].id);
  }

  lemma LocationChild(db: Db, tenant: string, x: string, id: string)
    requires Has(db.locations, tenant, x) && db.locations[x].body.parent == id
    ensures Blocked(db, Locations, tenant, id)
  {}

  lemma LocationBlockedOnlyBy(db: Db, tenant: string, rows: seq<Row<Location>>, k: nat, gone: set<string>)
    requires IdSet(rows) == IdsOf(db.locations, tenant) && k < |rows| && IdsOf(db.assets, tenant) == {}
    requires forall r <- rows :: r.id in db.locations && db.locations[r.id] == r
    requires forall j: nat :: j < |rows| ==> (rows[j].id in gone <==> j > k)
    requires Blocked(Drop(db, Locations, tenant, gone), Locations, tenant, rows[k].id)
    ensures ChildLeft(rows, LOCATION_UP, k)
  {
    var d := Drop(db, Locations, tenant, gone);
    assert forall x <- d.assets :: x in IdsOf(db.assets, tenant) || d.assets[x].tenant != tenant;
    var x :| x in d.locations && d.locations[x].tenant == tenant && d.locations[x].body.parent == rows[k].id;
    assert x in IdsOf(db.locations, tenant);
    InIdSet(rows, x);
    hide IdSet;
    var j :| 0 <= j < |rows| && rows[j].id == x;
    assert rows[j] in rows;
  }

  lemma InTaken(ids: seq<string>, n: nat, x: string)
    requires n <= |ids|
    ensures x in SetOf(ids[..n]) <==> exists i :: 0 <= i < n && ids[i] == x
  {
    if x in SetOf(ids[..n]) {
      var i :| 0 <= i < n && ids[..n][i] == x;
      assert ids[i] == x;
    }
    if i :| 0 <= i < n && ids[i] == x {
      assert ids[..n][i] == x;
    }
  }

  /** After the first deletions of the reversed order, what is gone is its end. */
  lemma GoneAt<B>(rows: seq<Row<B>>, k: nat, j: nat)
    requires Distinct(rows) && k < |rows| && j < |rows|
    ensures rows[j].id in SetOf(IdSeq(Reverse(rows))[..|rows| - 1 - k]) <==> j > k
  {
    hide Distinct, SetOf;
    var ids := IdSeq(Reverse(rows));
    var n := |rows| - 1 - k;
    InTaken(ids, n, rows[j].id);
    if j > k {
      assert ids[|rows| - 1 - j] == rows[j].id;
    } else if i :| 0 <= i < n && ids[i] == rows[j].id {
      DistinctApart(rows, j, |rows| - 1 - i);
    }
  }

  lemma ReversedIds<B>(rows: seq<Row<B>>)
    requires Distinct(rows)
    ensures NoDup(IdSeq(Reverse(rows))) && SetOf(IdSeq(Reverse(rows))) == IdSet(rows)
  {
    var ids := IdSeq(Reverse(rows));
    forall i, j | 0 <= i < j < |ids| ensures ids[i] != ids[j] {
      DistinctApart(rows, |rows| - 1 - j, |rows| - 1 - i);
    }
    forall x ensures x in SetOf(ids) <==> x in IdSet(rows) {
      InIdSet(rows, x);
      if x in IdSet(rows) {
        var i :| 0 <= i < |rows| && rows[i].id == x;
        assert ids[|rows| - 1 - i] == x;
      }
    }
  }

  lemma ListedParents<B>(rows: seq<Row<B>>, up: B -> string, t: Table<B>, tenant: string)
    requires Lists(rows, t, tenant)
    ensures var order := Order(rows, up);
            && Distinct(order) && IdSet(order) == IdsOf(t, tenant) && |order| == |rows|
            && (forall r <- order :: r.id in t && t[r.id] == r)
            && (ParentsFirst(Ups(ById(rows), up), order) <==> forall k: nat :: k < |order| ==> !ChildLeft(order, up, k))
  {
    var order := Order(rows, up);
    EveryIdOnce(rows, up);
    ByIdKeys(rows);
    ByIdOfDistinct(rows);
    IdSetSize(rows);
    IdSetSize(order);
    ChildLeftNever(order, up, Ups(ById(rows), up));
  }

  lemma CategoriesClear(db: Db, tenant: string, order: seq<Row<Category>>)
    requires Distinct(order) && IdSet(order) == IdsOf(db.categories, tenant) && IdsOf(db.assets, tenant) == {}
    requires forall r <- order :: r.id in db.categories && db.categories[r.id] == r
    ensures Clear(db, Categories, tenant, IdSeq(Reverse(order))) <==>
      forall k: nat :: k < |order| ==> !ChildLeft(order, CATEGORY_UP, k)
  {
    hide Drop, Blocked, ChildLeft, IdsOf, Clear, SetOf, Distinct, IdSet;
    var ids := IdSeq(Reverse(order));
    forall k: nat | k < |order|
      ensures ChildLeft(order, CATEGORY_UP, k) ==
              Blocked(Drop(db, Categories, tenant, SetOf(ids[..|order| - 1 - k])), Categories, tenant,
                      ids[|order| - 1 - k])
    {
      CategoryBlocked(db, tenant, order, k);
    }
    ClearByRow(db, Categories, tenant, order, CATEGORY_UP);
  }

  lemma CategoriesHeld(db: Db, tenant: string, order: seq<Row<Category>>)
    requires Distinct(order) && IdSet(order) == IdsOf(db.categories, tenant)
    ensures forall x <- IdSeq(Reverse(order)) :: Holds(db, Categories, tenant, x)
  {
    ReversedIds(order);
    forall x <- IdSeq(Reverse(order)) ensures Holds(db, Categories, tenant, x) {
      assert x in SetOf(IdSeq(Reverse(order)));
    }
  }

  /** The categories go exactly when the ordering put parents first. */
  lemma CategoriesGo(s: Sweep, tenant: string, l: Listing)
    requires s.err == OK && Lists(l.categories, s.db.categories, tenant) && IdsOf(s.db.assets, tenant) == {}
    ensures WipeCategories(s, tenant, l).err == OK <==>
            ParentsFirst(Ups(ById(l.categories), CATEGORY_UP), Order(l.categories, CATEGORY_UP))
    ensures WipeCategories(s, tenant, l).err == OK ==>
              WipeCategories(s, tenant, l) ==
              Sweep(Drop(s.db, Categories, tenant, IdsOf(s.db.categories, tenant)), s.n + |l.categories|, OK)
  {
    hide Drop, Order, ParentsFirst, Lists, Clear, ChildLeft, IdsOf, Distinct, IdSet, DeleteEach, Ups, ById, NoDup;
    var order := Order(l.categories, CATEGORY_UP);
    ListedParents(l.categories, CATEGORY_UP, s.db.categories, tenant);
    CategoriesClear(s.db, tenant, order);
    CategoriesHeld(s.db, tenant, order);
    ReversedIds(order);
    DeleteEachExactly(s.db, Categories, tenant, IdSeq(Reverse(order)));
  }

  lemma LocationsClear(db: Db, tenant: string, order: seq<Row<Location>>)
    requires Distinct(order) && IdSet(order) == IdsOf(db.locations, tenant) && IdsOf(db.assets, tenant) == {}
    requires forall r <- order :: r.id in db.locations && db.locations[r.id] == r
    ensures Clear(db, Locations, tenant, IdSeq(Reverse(order))) <==>
      forall k: nat :: k < |order| ==> !ChildLeft(order, LOCATION_UP, k)
  {
    hide Drop, Blocked, ChildLeft, IdsOf, Clear, SetOf, Distinct, IdSet;
    var ids := IdSeq(Reverse(order));
    forall k: nat | k < |order|
      ensures ChildLeft(order, LOCATION_UP, k) ==
              Blocked(Drop(db, Locations, tenant, SetOf(ids[..|order| - 1 - k])), Locations, tenant,
                      ids[|order| - 1 - k])
    {
      LocationBlocked(db, tenant, order, k);
    }
    ClearByRow(db, Locations, tenant, order, LOCATION_UP);
  }

  lemma LocationsHeld(db: Db, tenant: string, order: seq<Row<Location>>)
    requires Distinct(order) && IdSet(order) == IdsOf(db.locations, tenant)
    ensures forall x <- IdSeq(Reverse(order)) :: Holds(db, Locations, tenant, x)
  {
    ReversedIds(order);
    forall x <- IdSeq(Reverse(order)) ensures Holds(db, Locations, tenant, x) {
      assert x in SetOf(IdSeq(Reverse(order)));
    }
  }

  /** ... and so do the locations. */
  lemma LocationsGo(s: Sweep, tenant: string, l: Listing)
    requires s.err == OK && Lists(l.locations, s.db.locations, tenant) && IdsOf(s.db.assets, tenant) == {}
    ensures WipeLocations(s, tenant, l).err == OK <==>
            ParentsFirst(Ups(ById(l.locations), LOCATION_UP), Order(l.locations, LOCATION_UP))
    ensures WipeLocations(s, tenant, l).err == OK ==>
              WipeLocations(s, tenant, l) ==
              Sweep(Drop(s.db, Locations, tenant, IdsOf(s.db.locations, tenant)), s.n + |l.locations|, OK)
  {
    hide Drop, Order, ParentsFirst, Lists, Clear, ChildLeft, IdsOf, Distinct, IdSet, DeleteEach, Ups, ById, NoDup;
    var order := Order(l.locations, LOCATION_UP);
    ListedParents(l.locations, LOCATION_UP, s.db.locations, tenant);
    LocationsClear(s.db, tenant, order);
    LocationsHeld(s.db, tenant, order);
    ReversedIds(order);
    DeleteEachExactly(s.db, Locations, tenant, IdSeq(Reverse(order)));
  }

  /** Counting the reversed list from the front is counting the order from the back. */
  lemma ClearByRow<B>(db: Db, c: Collection, tenant: string, order: seq<Row<B>>, up: B -> string)
    requires forall k: nat :: k < |order| ==>
      ChildLeft(order, up, k) ==
      Blocked(Drop(db, c, tenant, SetOf(IdSeq(Reverse(order))[..|order| - 1 - k])), c, tenant,
              IdSeq(Reverse(order))[|order| - 1 - k])
    ensures Clear(db, c, tenant, IdSeq(Reverse(order))) <==> forall k: nat :: k < |order| ==> !ChildLeft(order, up, k)
  {
    hide Drop, Blocked, ChildLeft;
    var ids := IdSeq(Reverse(order));
    if Clear(db, c, tenant, ids) {
      forall k: nat | k < |order| ensures !ChildLeft(order, up, k) {
        assert !Blocked(Drop(db, c, tenant, SetOf(ids[..|order| - 1 - k])), c, tenant, ids[|order| - 1 - k]);
      }
    }
    if forall k: nat :: k < |order| ==> !ChildLeft(order, up, k) {
      forall i | 0 <= i < |ids| ensures !Blocked(Drop(db, c, tenant, SetOf(ids[..i])), c, tenant, ids[i]) {
        assert !ChildLeft(order, up, |order| - 1 - i);
        assert |order| - 1 - (|order| - 1 - i) == i;
      }
    }
  }

  // ---- the result

  /** Not one row of the tenant is left, in any of the ten maps. */
  ghost predicate Gone(db: Db, tenant: string) { db == OfOthers(db, tenant) }

  /** The parent map of a tenant's part of a tree, and the depth the ordering can cope with. */
  function Mine<B>(t: Table<B>, tenant: string): Table<B> { map x | x in t && t[x].tenant == tenant :: t[x] }

  ghost predicate Shallow<B>(t: Table<B>, tenant: string, up: B -> string) {
    forall id <- Mine(t, tenant) :: Forest.Climbs(Ups(Mine(t, tenant), up), id, MAX_DEPTH + 1)
  }

  lemma ByIdOfListing<B>(rows: seq<Row<B>>, t: Table<B>, tenant: string)
    requires Lists(rows, t, tenant)
    ensures ById(rows) == Mine(t, tenant)
  {
    ByIdKeys(rows);
    assert forall k <- ById(rows) :: k in IdsOf(t, tenant);
    assert ById(rows).Keys == Mine(t, tenant).Keys;
  }

  /** Both trees come out parents first. */
  ghost predicate Ordered(l: Listing) {
    && ParentsFirst(Ups(ById(l.categories), CATEGORY_UP), Order(l.categories, CATEGORY_UP))
    && ParentsFirst(Ups(ById(l.locations), LOCATION_UP), Order(l.locations, LOCATION_UP))
  }

  /** What decides that beforehand: in both listings every row has a chain of parents that leaves
      the tree, or meets an earlier row or an ancestor of one, within 65 steps. */
  ghost predicate FollowableTrees(db: Db, tenant: string, l: Listing) {
    && Followable(Ups(Mine(db.categories, tenant), CATEGORY_UP), l.categories)
    && Followable(Ups(Mine(db.locations, tenant), LOCATION_UP), l.locations)
  }

  lemma OrderedExactly(db: Db, tenant: string, l: Listing)
    requires ListsAll(l, db, tenant)
    ensures Ordered(l) <==> FollowableTrees(db, tenant, l)
  {
    ByIdOfListing(l.categories, db.categories, tenant);
    ByIdOfListing(l.locations, db.locations, tenant);
    OrderExactly(l.categories, CATEGORY_UP);
    OrderExactly(l.locations, LOCATION_UP);
  }

  lemma ShallowIsOrdered(db: Db, tenant: string, l: Listing)
    requires ListsAll(l, db, tenant)
    requires Shallow(db.categories, tenant, CATEGORY_UP) && Shallow(db.locations, tenant, LOCATION_UP)
    ensures Ordered(l)
  {
    ByIdOfListing(l.categories, db.categories, tenant);
    ByIdOfListing(l.locations, db.locations, tenant);
    OrderIsParentsFirst(l.categories, CATEGORY_UP);
    OrderIsParentsFirst(l.locations, LOCATION_UP);
  }

  function RowCount(l: Listing): nat {
    |l.policies| + |l.licenses| + |l.consumables| + |l.assets| + |l.categories| + |l.locations| + |l.suppliers|
  }

  /** What is left when every deletion went through. */
  function Bare(db: Db, tenant: string): Db {
    var d := Drop(Recordless(db, tenant), Categories, tenant, IdsOf(db.categories, tenant));
    var d := Drop(d, Locations, tenant, IdsOf(db.locations, tenant));
    Drop(d, Suppliers, tenant, IdsOf(db.suppliers, tenant))
  }

  lemma RecordlessTables(db: Db, tenant: string)
    ensures var d := Recordless(db, tenant);
            && d.categories == db.categories && d.locations == db.locations && d.suppliers == db.suppliers
            && IdsOf(d.assets, tenant) == {}
  {}

  lemma TreesGo(s: Sweep, tenant: string, l: Listing, db: Db)
    requires s.err == OK && IdsOf(s.db.assets, tenant) == {}
    requires s.db.categories == db.categories && s.db.locations == db.locations && s.db.suppliers == db.suppliers
    requires ListsAll(l, db, tenant)
    ensures var t := WipeLocations(WipeCategories(s, tenant, l), tenant, l);
            && (t.err == OK <==> Ordered(l))
            && (t.err == OK ==> t.db.suppliers == db.suppliers)
            && (t.err == OK ==>
                var d := Drop(s.db, Categories, tenant, IdsOf(db.categories, tenant));
                t == Sweep(Drop(d, Locations, tenant, IdsOf(db.locations, tenant)),
                           s.n + |l.categories| + |l.locations|, OK))
  {
    hide Lists, ParentsFirst, Order, Ups, ById, IdsOf, WipeCategories, DeleteEach, IdSeq;
    hide ClearCategory, ClearLocation;
    CategoriesGo(s, tenant, l);
    var s2 := WipeCategories(s, tenant, l);
    if s2.err == OK {
      hide WipeLocations;
      LocationsGo(s2, tenant, l);
    }
  }

  lemma SuppliersGo(s: Sweep, tenant: string, l: Listing, db: Db)
    requires s.err == OK && s.db.suppliers == db.suppliers && Lists(l.suppliers, db.suppliers, tenant)
    ensures Then(s, Suppliers, tenant, IdSeq(l.suppliers)) ==
            Sweep(Drop(s.db, Suppliers, tenant, IdsOf(db.suppliers, tenant)), s.n + |l.suppliers|, OK)
  {
    ListedIds(l.suppliers, db.suppliers, tenant);
    ThenDrops(s, Suppliers, tenant, IdSeq(l.suppliers), IdsOf(db.suppliers, tenant));
  }

  lemma WipeOrdered(db: Db, tenant: string, l: Listing)
    requires ListsAll(l, db, tenant)
    ensures WipeAll(db, tenant, l).err == OK <==> Ordered(l)
    ensures Ordered(l) ==> WipeAll(db, tenant, l) == Sweep(Bare(db, tenant), RowCount(l), OK)
  {
    WipeRecordsDrops(db, tenant, l);
    RecordlessTables(db, tenant);
    hide Drop, Lists, Recordless, WipeRecords, WipeCategories, WipeLocations, IdsOf, Ordered, DeleteEach, IdSeq;
    var s1 := WipeRecords(db, tenant, l);
    TreesGo(s1, tenant, l, db);
    var s3 := WipeLocations(WipeCategories(s1, tenant, l), tenant, l);
    if s3.err == OK {
      SuppliersGo(s3, tenant, l, db);
    }
  }

  /** The store fails nowhere on the way. */
  predicate Smooth(l: Listing, f: Stops) {
    && !Hit(f(Policies), |l.policies|) && !Hit(f(Licenses), |l.licenses|) && !Hit(f(Consumables), |l.consumables|)
    && !Hit(f(Assets), |l.assets|) && !Hit(f(Categories), |l.categories|) && !Hit(f(Locations), |l.locations|)
    && !Hit(f(Suppliers), |l.suppliers|)
  }

  lemma StageIs(s: Sweep, c: Collection, tenant: string, ids: seq<string>, stop: Stop)
    ensures !Hit(stop, |ids|) ==> Stage(s, c, tenant, ids, stop) == Then(s, c, tenant, ids)
    ensures Stage(s, c, tenant, ids, stop).err == OK ==> s.err == OK && !Hit(stop, |ids|)
  {
  }

  lemma OrderLength<B>(rows: seq<Row<B>>, up: B -> string)
    requires Distinct(rows)
    ensures |IdSeq(Reverse(Order(rows, up)))| == |rows|
  {
    EveryIdOnce(rows, up);
    DistinctIds(rows);
    DistinctIds(Order(rows, up));
  }

  /** Without a failure it is the plain wipe; with one it does not run through. */
  lemma SmoothWipes(db: Db, tenant: string, l: Listing, f: Stops)
    requires ListsAll(l, db, tenant)
    ensures Smooth(l, f) ==> WipeUntil(db, tenant, l, f) == WipeAll(db, tenant, l)
    ensures WipeUntil(db, tenant, l, f).err == OK ==> Smooth(l, f)
  {
    OrderLength(l.categories, CATEGORY_UP);
    OrderLength(l.locations, LOCATION_UP);
    hide Stage, Then, Order, Reverse, Lists;
    var categories := IdSeq(Reverse(Order(l.categories, CATEGORY_UP)));
    var locations := IdSeq(Reverse(Order(l.locations, LOCATION_UP)));
    assert |IdSeq(l.policies)| == |l.policies| && |IdSeq(l.licenses)| == |l.licenses|;
    assert |IdSeq(l.consumables)| == |l.consumables|;
    assert |IdSeq(l.assets)| == |l.assets| && |IdSeq(l.suppliers)| == |l.suppliers|;
    hide IdSeq, Hit;
    var s0 := Sweep(db, 0, OK);
    StageIs(s0, Policies, tenant, IdSeq(l.policies), f(Policies));
    var s1 := Stage(s0, Policies, tenant, IdSeq(l.policies), f(Policies));
    StageIs(s1, Licenses, tenant, IdSeq(l.licenses), f(Licenses));
    var s2 := Stage(s1, Licenses, tenant, IdSeq(l.licenses), f(Licenses));
    StageIs(s2, Consumables, tenant, IdSeq(l.consumables), f(Consumables));
    var s3 := Stage(s2, Consumables, tenant, IdSeq(l.consumables), f(Consumables));
    StageIs(s3, Assets, tenant, IdSeq(l.assets), f(Assets));
    var s4 := Stage(s3, Assets, tenant, IdSeq(l.assets), f(Assets));
    StageIs(s4, Categories, tenant, categories, f(Categories));
    var s5 := Stage(s4, Categories, tenant, categories, f(Categories));
    StageIs(s5, Locations, tenant, locations, f(Locations));
    var s6 := Stage(s5, Locations, tenant, locations, f(Locations));
    StageIs(s6, Suppliers, tenant, IdSeq(l.suppliers), f(Suppliers));
  }

  /** A wipe of a listing runs through exactly when the store fails nowhere and both trees are
      followable as listed; it then counts every row of the seven collections. */
  lemma WipeExactly(db: Db, tenant: string, l: Listing, f: Stops)
    requires ListsAll(l, db, tenant)
    ensures WipeUntil(db, tenant, l, f).err == OK <==> Smooth(l, f) && FollowableTrees(db, tenant, l)
    ensures Smooth(l, f) && FollowableTrees(db, tenant, l) ==>
      WipeUntil(db, tenant, l, f) == Sweep(Bare(db, tenant), RowCount(l), OK)
  {
    OrderedExactly(db, tenant, l);
    WipeOrdered(db, tenant, l);
    SmoothWipes(db, tenant, l, f);
  }

  // ---- every listing

  lemma {:induction false} ListFirst<B>(t: Table<B>, x: string, ids: set<string>) returns (rows: seq<Row<B>>)
    requires Keyed(t) && x in t && ids <= t.Keys && x !in ids
    ensures rows != [] && rows[0] == t[x] && Distinct(rows) && IdSet(rows) == ids + {x}
    ensures forall r <- rows :: r.id in t && r == t[r.id]
    decreases |ids|
  {
    if ids == {} {
      rows := [t[x]];
      Append([], t[x]);
      assert [] + [t[x]] == rows;
    } else {
      var y :| y in ids;
      rows := ListFirst(t, x, ids - {y});
      Append(rows, t[y]);
      rows := rows + [t[y]];
    }
  }

  /** Any row of a tenant can come first in a listing. */
  lemma ListFrom<B>(t: Table<B>, tenant: string, x: string) returns (rows: seq<Row<B>>)
    requires Keyed(t) && Has(t, tenant, x)
    ensures Lists(rows, t, tenant) && rows != [] && rows[0] == t[x]
  {
    rows := ListFirst(t, x, IdsOf(t, tenant) - {x});
    assert IdSet(rows) == IdsOf(t, tenant);
  }

  lemma ListAny<B>(t: Table<B>, tenant: string) returns (rows: seq<Row<B>>)
    requires Keyed(t)
    ensures Lists(rows, t, tenant)
  {
    rows := [];
    if x :| x in IdsOf(t, tenant) { rows := ListFrom(t, tenant, x); }
  }

  lemma ListEverything(db: Db, tenant: string) returns (l: Listing)
    requires KeyedAll(db)
    ensures ListsAll(l, db, tenant)
  {
    var p := ListAny(db.policies, tenant);
    var li := ListAny(db.licenses, tenant);
    var co := ListAny(db.consumables, tenant);
    var a := ListAny(db.assets, tenant);
    var ca := ListAny(db.categories, tenant);
    var lo := ListAny(db.locations, tenant);
    var su := ListAny(db.suppliers, tenant);
    l := Listing(p, li, co, a, ca, lo, su);
  }

  lemma DeepFirst<B>(rows: seq<Row<B>>, t: Table<B>, tenant: string, up: B -> string, x: string)
    requires Lists(rows, t, tenant) && rows != [] && rows[0].id == x
    requires !Forest.Climbs(Ups(Mine(t, tenant), up), x, MAX_DEPTH + 1)
    ensures !ParentsFirst(Ups(ById(rows), up), Order(rows, up))
  {
    ByIdOfListing(rows, t, tenant);
    OrderNotParentsFirst(rows, up);
  }

  /** A wipe runs through for every listing of the tenant exactly when no category and no
      location has more than 64 ancestors. */
  lemma EveryListingWipes(db: Db, tenant: string)
    requires KeyedAll(db)
    ensures (forall l | ListsAll(l, db, tenant) :: WipeAll(db, tenant, l).err == OK)
       <==> Shallow(db.categories, tenant, CATEGORY_UP) && Shallow(db.locations, tenant, LOCATION_UP)
  {
    hide WipeAll, Followable, ParentsFirst, Order, Lists;
    if Shallow(db.categories, tenant, CATEGORY_UP) && Shallow(db.locations, tenant, LOCATION_UP) {
      forall l | ListsAll(l, db, tenant) ensures WipeAll(db, tenant, l).err == OK {
        ShallowIsOrdered(db, tenant, l);
        WipeOrdered(db, tenant, l);
      }
    } else {
      var l := ListEverything(db, tenant);
      var cs, ls := Mine(db.categories, tenant), Mine(db.locations, tenant);
      if x :| x in cs && !Forest.Climbs(Ups(cs, CATEGORY_UP), x, MAX_DEPTH + 1) {
        var rows := ListFrom(db.categories, tenant, x);
        l := l.(categories := rows);
        DeepFirst(rows, db.categories, tenant, CATEGORY_UP, x);
      } else if x :| x in ls && !Forest.Climbs(Ups(ls, LOCATION_UP), x, MAX_DEPTH + 1) {
        var rows := ListFrom(db.locations, tenant, x);
        l := l.(locations := rows);
        DeepFirst(rows, db.locations, tenant, LOCATION_UP, x);
      }
      WipeOrdered(db, tenant, l);
    }
  }

  /** No record of the tenant outside the two trees and the suppliers. */
  ghost predicate NoRecords(d: Db, tenant: string) {
    && (forall x <- d.assignments :: d.assignments[x].tenant != tenant)
    && (forall x <- d.links :: d.links[x].tenant != tenant)
    && (forall x <- d.documents :: d.documents[x].tenant != tenant)
    && (forall x <- d.consumables :: d.consumables[x].tenant != tenant)
    && (forall x <- d.assets :: d.assets[x].tenant != tenant)
    && (forall x <- d.licenses :: d.licenses[x].tenant != tenant)
    && (forall x <- d.policies :: d.policies[x].tenant != tenant)
  }

  lemma RecordlessIsGone(db: Db, tenant: string)
    requires Attached(db, tenant)
    ensures NoRecords(Recordless(db, tenant), tenant)
  {}

  lemma StillNoRecords(d: Db, c: Collection, tenant: string, ids: set<string>)
    requires NoRecords(d, tenant) && c in {Categories, Locations, Suppliers}
    ensures NoRecords(Drop(d, c, tenant, ids), tenant)
  {}

  lemma MinusAll<B>(t: Table<B>, tenant: string)
    ensures forall x <- t - IdsOf(t, tenant) :: t[x].tenant != tenant
  {}

  lemma BareTables(db: Db, tenant: string)
    ensures var d := Bare(db, tenant);
            && d.categories == db.categories - IdsOf(db.categories, tenant)
            && d.locations == db.locations - IdsOf(db.locations, tenant)
            && d.suppliers == db.suppliers - IdsOf(db.suppliers, tenant)
  {
    RecordlessTables(db, tenant);
    hide Recordless, IdsOf, ClearCategory, ClearLocation, ClearSupplier, ClearAssetSupplier, ClearLicenseSupplier;
  }

  lemma NoRecordsIsGone(d: Db, tenant: string)
    requires NoRecords(d, tenant)
    requires forall x <- d.categories :: d.categories[x].tenant != tenant
    requires forall x <- d.locations :: d.locations[x].tenant != tenant
    requires forall x <- d.suppliers :: d.suppliers[x].tenant != tenant
    ensures Gone(d, tenant)
  {}

  lemma BareIsGone(db: Db, tenant: string)
    requires Attached(db, tenant)
    ensures Gone(Bare(db, tenant), tenant)
  {
    RecordlessIsGone(db, tenant);
    MinusAll(db.categories, tenant);
    MinusAll(db.locations, tenant);
    MinusAll(db.suppliers, tenant);
    BareTables(db, tenant);
    hide Recordless, Drop, Attached, IdsOf, NoRecords, Gone;
    var r := Recordless(db, tenant);
    var d1 := Drop(r, Categories, tenant, IdsOf(db.categories, tenant));
    StillNoRecords(r, Categories, tenant, IdsOf(db.categories, tenant));
    var d2 := Drop(d1, Locations, tenant, IdsOf(db.locations, tenant));
    StillNoRecords(d1, Locations, tenant, IdsOf(db.locations, tenant));
    StillNoRecords(d2, Suppliers, tenant, IdsOf(db.suppliers, tenant));
    NoRecordsIsGone(Bare(db, tenant), tenant);
  }

  /** Wipe completeness: with references closed and no tree deeper than the
      ordering can follow, every record of the tenant goes, the count is the
      number of rows deleted, and nothing else has changed. */
  lemma WipeEmpties(db: Db, tenant: string, l: Listing, f: Stops)
    requires ListsAll(l, db, tenant) && Attached(db, tenant) && Smooth(l, f)
    requires Shallow(db.categories, tenant, CATEGORY_UP) && Shallow(db.locations, tenant, LOCATION_UP)
    ensures WipeUntil(db, tenant, l, f) == Sweep(OfOthers(db, tenant), RowCount(l), OK)
  {
    ShallowIsOrdered(db, tenant, l);
    WipeOrdered(db, tenant, l);
    SmoothWipes(db, tenant, l, f);
    BareIsGone(db, tenant);
    WipeLeavesOthers(db, tenant, l, f);
  }

  // ---- the wipe on the store

  method ListRows<B>(t: Table<B>, tenant: string) returns (rows: seq<Row<B>>)
    requires Keyed(t)
    ensures Lists(rows, t, tenant)
  {
    rows := [];
    var left := IdsOf(t, tenant);
    while left != {}
      invariant left <= IdsOf(t, tenant) && Distinct(rows) && IdSet(rows) == IdsOf(t, tenant) - left
      invariant forall r <- rows :: r.id in t && r == t[r.id]
      decreases left
    {
      var x :| x in left;
      hide Distinct, IdSet;
      Append(rows, t[x]);
      rows := rows + [t[x]];
      left := left - {x};
    }
  }

  lemma {:induction false} DeleteEachStops(db: Db, c: Collection, tenant: string, ids: seq<string>, i: nat)
    requires i <= |ids| && DeleteEach(db, c, tenant, ids[..i]).err != OK
    ensures DeleteEach(db, c, tenant, ids) == DeleteEach(db, c, tenant, ids[..i])
  {
    if i == |ids| {
      Seqs.TakeAll(ids);
    } else {
      assert ids[..|ids| - 1][..i] == ids[..i];
      DeleteEachStops(db, c, tenant, ids[..|ids| - 1], i);
    }
  }

  method RemoveEach(mem: Mem, c: Collection, tenant: string, ids: seq<string>) returns (n: nat, err: Err)
    modifies mem
    ensures Sweep(mem.Contents(), n, err) == DeleteEach(old(mem.Contents()), c, tenant, ids)
  {
    hide Delete;
    n, err := 0, OK;
    for i := 0 to |ids|
      invariant err == OK && Sweep(mem.Contents(), n, err) == DeleteEach(old(mem.Contents()), c, tenant, ids[..i])
    {
      Seqs.TakeMore(ids, i);
      err := mem.Remove(c, tenant, ids[i]);
      if err != OK {
        DeleteEachStops(old(mem.Contents()), c, tenant, ids, i + 1);
        return;
      }
      n := n + 1;
    }
    Seqs.TakeAll(ids);
  }

  method RemoveMore(mem: Mem, n: nat, err: Err, c: Collection, tenant: string, ids: seq<string>,
                    stop: Stop) returns (n': nat, err': Err)
    modifies mem
    ensures Sweep(mem.Contents(), n', err') == Stage(Sweep(old(mem.Contents()), n, err), c, tenant, ids, stop)
  {
    n', err' := n, err;
    if err == OK {
      var more;
      more, err' := RemoveEach(mem, c, tenant, Before(ids, stop));
      n' := n + more;
      if err' == OK && Hit(stop, |ids|) {
        err' := Failed;
      }
    }
  }

  /** Deletes every record of the tenant. A collection's listing does not depend
      on the deletions before it, so the listings are taken together. */
  method WipeTenant(mem: Mem, tenant: string, f: Stops) returns (n: nat, err: Err, l: Listing)
    requires KeyedAll(mem.Contents())
    modifies mem
    ensures ListsAll(l, old(mem.Contents()), tenant)
    ensures Sweep(mem.Contents(), n, err) == WipeUntil(old(mem.Contents()), tenant, l, f)
  {
    hide Lists, Keyed, Stage, Order, Reverse, IdSeq;
    var policies := ListRows(mem.policies, tenant);
    var licenses := ListRows(mem.licenses, tenant);
    var consumables := ListRows(mem.consumables, tenant);
    var assets := ListRows(mem.assets, tenant);
    var categories := ListRows(mem.categories, tenant);
    var locations := ListRows(mem.locations, tenant);
    var suppliers := ListRows(mem.suppliers, tenant);
    l := Listing(policies, licenses, consumables, assets, categories, locations, suppliers);
    n, err := RemoveMore(mem, 0, OK, Policies, tenant, IdSeq(policies), f(Policies));
    n, err := RemoveMore(mem, n, err, Licenses, tenant, IdSeq(licenses), f(Licenses));
    n, err := RemoveMore(mem, n, err, Consumables, tenant, IdSeq(consumables), f(Consumables));
    n, err := RemoveMore(mem, n, err, Assets, tenant, IdSeq(assets), f(Assets));
    var order := OrderRows(categories, CATEGORY_UP);
    var back := ReverseRows(order);
    n, err := RemoveMore(mem, n, err, Categories, tenant, IdSeq(back), f(Categories));
    var order' := OrderRows(locations, LOCATION_UP);
    var back' := ReverseRows(order');
    n, err := RemoveMore(mem, n, err, Locations, tenant, IdSeq(back'), f(Locations));
    n, err := RemoveMore(mem, n, err, Suppliers, tenant, IdSeq(suppliers), f(Suppliers));
  }
}
