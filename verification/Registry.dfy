/** The three services as one machine over the store: any calls, in any order, by any
    tenants, with writes that may fail. */
module Registry {
  import opened Optional
  import opened Store
  import opened Services
  import opened Lifecycle

  datatype Op =
    | NewCategory(tenant: string, id: NewId, category: Category, now: Time)
    | EditCategory(tenant: string, node: string, category: Category, now: Time)
    | DropCategory(tenant: string, node: string)
    | NewLocation(tenant: string, id: NewId, location: Location, now: Time)
    | EditLocation(tenant: string, node: string, location: Location, now: Time)
    | DropLocation(tenant: string, node: string)
    | NewAsset(tenant: string, id: NewId, input: Asset, tags: seq<string>, now: Time)
    | EditAsset(tenant: string, asset: string, input: Asset, now: Time)
    | DropAsset(tenant: string, asset: string)
    | CheckOut(tenant: string, asset: string, user: string, known: bool, row: NewId, notes: string, now: Time,
               f: Faults)
    | CheckIn(tenant: string, asset: string, place: string, row: NewId, notes: string, now: Time, f: Faults)

  ghost function Next(o: Office, op: Op): Office {
    match op
    case NewCategory(t, id, b, now) =>
      o.(db := o.db.(categories := CreateNode(CATEGORY_TREE, o.db.categories, t, id, b, now).1))
    case EditCategory(t, id, b, now) =>
      o.(db := o.db.(categories := UpdateNode(CATEGORY_TREE, o.db.categories, t, id, b, now).1))
    case DropCategory(t, id) => o.(db := Store.Delete(o.db, Categories, t, id).value)
    case NewLocation(t, id, b, now) =>
      o.(db := o.db.(locations := CreateNode(LOCATION_TREE, o.db.locations, t, id, b, now).1))
    case EditLocation(t, id, b, now) =>
      o.(db := o.db.(locations := UpdateNode(LOCATION_TREE, o.db.locations, t, id, b, now).1))
    case DropLocation(t, id) => o.(db := Store.Delete(o.db, Locations, t, id).value)
    case NewAsset(t, id, a, tags, now) =>
      if |tags| == ATTEMPTS then o.(db := CreateAsset(o.db, t, id, a, tags, now).1) else o
    case EditAsset(t, id, a, now) => o.(db := UpdateAsset(o.db, t, id, a, now).1)
    case DropAsset(t, id) => o.(db := Store.Delete(o.db, Assets, t, id).value)
    case CheckOut(t, id, u, known, row, notes, now, f) => Assign(o, t, id, u, known, row, notes, now, f).1
    case CheckIn(t, id, l, row, notes, now, f) => Unassign(o, t, id, l, row, notes, now, f).1
  }

  // ---- what a call does to the asset table

  /** Nothing but the history changes besides the one asset written, which keeps its
      tenant and names a category and a location that exist. */
  ghost predicate Wrote(db: Db, n: Db, r: Row<Asset>) {
    && n == db.(assets := db.assets[r.id := r], assignments := n.assignments)
    && r.id != "" && (r.id in db.assets ==> db.assets[r.id].tenant == r.tenant)
    && ParentExists(db.categories, r.tenant, r.body.category) && ParentExists(db.locations, r.tenant, r.body.location)
  }

  lemma WroteIsSound(db: Db, n: Db, r: Row<Asset>)
    requires Sound(db) && Wrote(db, n, r)
    ensures Sound(n)
  {
  }

  /** The row a create adds: all but the tag and the rate as given. */
  predicate Made(r: Row<Asset>, m: Row<Asset>) {
    m.id == r.id && m.tenant == r.tenant && m.body == r.body.(tag := m.body.tag, rate := m.body.rate)
  }

  lemma {:induction false} AutoCreates(t: Table<Asset>, r: Row<Asset>, tags: seq<string>, now: Time)
    requires tags != [] && r.id != "" && r.body.status != ""
    ensures var reply := CreateAuto(t, r, tags, now);
      if reply.err != OK then reply.value == t
      else
        && r.id !in t && r.id in reply.value && Made(r, reply.value[r.id])
        && reply.value == t[r.id := reply.value[r.id]]
  {
    if |tags| > 1 { AutoCreates(t, r, tags[1..], now); }
  }

  /** A new asset is with nobody. */
  predicate Unheld(a: Asset) { a.user == "" && a.status != ASSIGNED }

  /** An edit leaves to the lifecycle what it owns. */
  predicate SameHolder(was: Asset, a: Asset) {
    if was.status == ASSIGNED then a.status == ASSIGNED && a.user == was.user && a.location == "" else Unheld(a)
  }

  ghost predicate Put(db: Db, n: Db, tenant: string, id: string) {
    id in n.assets && n.assets[id].id == id && n.assets[id].tenant == tenant && Wrote(db, n, n.assets[id])
  }

  lemma NewAssetMade(db: Db, t: string, id: NewId, input: Asset, tags: seq<string>, now: Time)
    requires |tags| == ATTEMPTS
    ensures var (e, n) := CreateAsset(db, t, id, input, tags, now);
      || (e != Ok && n == db)
      || (id !in db.assets && Put(db, n, t, id) && n.assignments == db.assignments && Unheld(n.assets[id].body))
  {
    if ValidAsset(input) && input.status != ASSIGNED && RefsExist(db, t, input) {
      var r := Row(id, t, now, now, WithDefaults(input.(user := "")));
      assert r.body.status != "" && r.body.status != ASSIGNED by { assert |DEPLOYABLE| != |ASSIGNED|; }
      AutoCreates(db.assets, r, tags, now);
    }
  }

  lemma EditAssetWrites(db: Db, t: string, id: string, input: Asset, now: Time)
    requires Keyed(db.assets)
    ensures var (e, n) := UpdateAsset(db, t, id, input, now);
      || (e != Ok && n == db)
      || (Has(db.assets, t, id) && Put(db, n, t, id) && n.assignments == db.assignments
          && SameHolder(db.assets[id].body, n.assets[id].body))
  {
    assert |DEPLOYABLE| != |ASSIGNED|;
  }

  /** A saved asset is the one given, with the rate filled in. */
  lemma SaveWrites(o: Office, r: Row<Asset>, now: Time)
    requires Sound(o.db) && Has(o.db.assets, r.tenant, r.id)
    requires ParentExists(o.db.categories, r.tenant, r.body.category)
    requires ParentExists(o.db.locations, r.tenant, r.body.location)
    ensures var (e, n) := SaveAsset(o, r, now);
      || (e != OK && n == o)
      || (e == OK && n.log == o.log && n.db.assignments == o.db.assignments && Put(o.db, n.db, r.tenant, r.id)
          && n.db.assets[r.id].body == r.body.(rate := n.db.assets[r.id].body.rate))
  {
  }

  /** Writing history rows is not a write of another asset. */
  lemma PutAndHistory(db: Db, n: Db, m: Db, tenant: string, id: string)
    requires Put(db, n, tenant, id) && m == n.(assignments := m.assignments)
    ensures Put(db, m, tenant, id)
  {
  }

  lemma AssignWrites(o: Office, t: string, id: string, u: string, known: bool, row: NewId, notes: string, now: Time,
                     f: Faults)
    requires Sound(o.db)
    ensures var n := Assign(o, t, id, u, known, row, notes, now, f).1; n == o || Put(o.db, n.db, t, id)
  {
    var m := Assign(o, t, id, u, known, row, notes, now, f).1;
    if AssignCheck(o, t, id, u, known) == Ok {
      var a := o.db.assets[id];
      var n := SaveAsset(o, a.(body := TakenBy(a.body, u)), now).1;
      SaveWrites(o, a.(body := TakenBy(a.body, u)), now);
      hide SaveAsset, Sound, Put;
      if m != o { PutAndHistory(o.db, n.db, m.db, t, id); }
    }
  }

  lemma UnassignWrites(o: Office, t: string, id: string, l: string, row: NewId, notes: string, now: Time, f: Faults)
    requires Sound(o.db)
    ensures var n := Unassign(o, t, id, l, row, notes, now, f).1; n == o || Put(o.db, n.db, t, id)
  {
    var m := Unassign(o, t, id, l, row, notes, now, f).1;
    if UnassignCheck(o, t, id, l) == Ok {
      var a := o.db.assets[id];
      var n := SaveAsset(o, a.(body := PutBack(a.body, l)), now).1;
      SaveWrites(o, a.(body := PutBack(a.body, l)), now);
      hide SaveAsset, Sound, CloseActive, Put;
      if m != o { PutAndHistory(o.db, n.db, m.db, t, id); }
    }
  }

  // ---- the trees and the references, whatever fails

  ghost predicate KeepsNodes<B>(t: Table<B>, n: Table<B>) {
    forall tenant, x :: Has(t, tenant, x) ==> Has(n, tenant, x)
  }

  lemma NodesKeepRefs(db: Db, n: Db)
    requires AssetRefs(db) && n.assets == db.assets && KeepsNodes(db.categories, n.categories)
    requires KeepsNodes(db.locations, n.locations)
    ensures AssetRefs(n)
  {
  }

  lemma TreesStayPut()
    ensures StaysPut(CATEGORY_TREE) && StaysPut(LOCATION_TREE)
  {
  }

  lemma NodeGrows<B(!new)>(k: Tree<B>, t: Table<B>, tenant: string, id: NewId, node: string, body: B, now: Time)
    ensures KeepsNodes(t, CreateNode(k, t, tenant, id, body, now).1)
    ensures KeepsNodes(t, UpdateNode(k, t, tenant, node, body, now).1)
  {
  }

  lemma NodeSound(o: Office, op: Op)
    requires op.NewCategory? || op.EditCategory? || op.NewLocation? || op.EditLocation?
    requires Sound(o.db)
    ensures Sound(Next(o, op).db)
  {
    var db, n := o.db, Next(o, op).db;
    TreesStayPut();
    hide CreateNode, UpdateNode, Forests, StaysPut;
    match op {
      case NewCategory(t, id, b, now) =>
        CreateKeepsForests(CATEGORY_TREE, db.categories, t, id, b, now);
        NodeGrows(CATEGORY_TREE, db.categories, t, id, "", b, now);
      case EditCategory(t, id, b, now) =>
        UpdateKeepsForests(CATEGORY_TREE, db.categories, t, id, b, now);
        NodeGrows(CATEGORY_TREE, db.categories, t, "0", id, b, now);
      case NewLocation(t, id, b, now) =>
        CreateKeepsForests(LOCATION_TREE, db.locations, t, id, b, now);
        NodeGrows(LOCATION_TREE, db.locations, t, id, "", b, now);
      case EditLocation(t, id, b, now) =>
        UpdateKeepsForests(LOCATION_TREE, db.locations, t, id, b, now);
        NodeGrows(LOCATION_TREE, db.locations, t, "0", id, b, now);
    }
    NodesKeepRefs(db, n);
  }

  lemma DropSound(o: Office, op: Op)
    requires op.DropCategory? || op.DropLocation? || op.DropAsset?
    requires Sound(o.db)
    ensures Sound(Next(o, op).db)
  {
    var db, n := o.db, Next(o, op).db;
    if n != db {
      match op {
        case DropCategory(t, id) => RemoveKeepsForests(CATEGORY_TREE, db.categories, t, id);
        case DropLocation(t, id) => RemoveKeepsForests(LOCATION_TREE, db.locations, t, id);
        case DropAsset(t, id) =>
      }
      hide Forests;
      assert AssetRefs(n);
    }
  }

  lemma StepSound(o: Office, op: Op)
    requires Sound(o.db)
    ensures Sound(Next(o, op).db)
  {
    var n := Next(o, op);
    match op
    case NewAsset(t, id, a, tags, now) =>
      if |tags| == ATTEMPTS {
        NewAssetMade(o.db, t, id, a, tags, now);
        hide CreateAsset, Sound, Wrote;
        if n.db != o.db { WroteIsSound(o.db, n.db, n.db.assets[id]); }
      }
    case EditAsset(t, id, a, now) =>
      EditAssetWrites(o.db, t, id, a, now);
      hide UpdateAsset, Sound, Wrote;
      if n.db != o.db { WroteIsSound(o.db, n.db, n.db.assets[id]); }
    case CheckOut(t, id, u, known, row, notes, now, f) =>
      AssignWrites(o, t, id, u, known, row, notes, now, f);
      hide Assign, Sound, Wrote;
      if n != o { WroteIsSound(o.db, n.db, n.db.assets[id]); }
    case CheckIn(t, id, l, row, notes, now, f) =>
      UnassignWrites(o, t, id, l, row, notes, now, f);
      hide Unassign, Sound, Wrote;
      if n != o { WroteIsSound(o.db, n.db, n.db.assets[id]); }
    case DropAsset(_, _) => hide Next, Sound; DropSound(o, op);
    case DropCategory(_, _) => hide Next, Sound; DropSound(o, op);
    case DropLocation(_, _) => hide Next, Sound; DropSound(o, op);
    case _ => hide Next, Sound; NodeSound(o, op);
  }

  ghost function Run(o: Office, ops: seq<Op>): Office {
    if ops == [] then o else Next(Run(o, ops[..|ops| - 1]), ops[|ops| - 1])
  }

  /** Over every run of calls, failures included: the category and location trees of every
      tenant stay acyclic and closed, and every asset's references resolve. */
  lemma {:induction false} AlwaysSound(o: Office, ops: seq<Op>)
    requires Sound(o.db)
    ensures Sound(Run(o, ops).db)
  {
    if ops != [] {
      AlwaysSound(o, ops[..|ops| - 1]);
      hide Next, Sound;
      StepSound(Run(o, ops[..|ops| - 1]), ops[|ops| - 1]);
    }
  }

  // ---- the history

  ghost function HistoryOf(o: Office, x: string): seq<Assignment>
    requires x in o.db.assets
  {
    History(o.db.assignments, o.log, o.db.assets[x].tenant, x)
  }

  /** Every history row was inserted, and its asset is there. */
  ghost predicate Owned(o: Office) {
    forall x <- o.db.assignments ::
      x in o.log && Has(o.db.assets, o.db.assignments[x].tenant, o.db.assignments[x].body.asset)
  }

  /** Every asset agrees with its history. */
  ghost predicate Told(o: Office) {
    Owned(o) && forall x <- o.db.assets :: Agrees(o.db.assets[x].body, HistoryOf(o, x))
  }

  predicate SameStory(o: Office, n: Office) {
    n.db.assets == o.db.assets && n.db.assignments == o.db.assignments && n.log == o.log
  }

  lemma SameStoryTold(o: Office, n: Office)
    requires SameStory(o, n)
    ensures Told(o) <==> Told(n)
  {
    assert forall x <- o.db.assets :: HistoryOf(o, x) == HistoryOf(n, x);
  }

  lemma NewAssetTold(o: Office, n: Office, t: string, id: string)
    requires Told(o) && id !in o.db.assets && Put(o.db, n.db, t, id)
    requires n.db.assignments == o.db.assignments && n.log == o.log && Unheld(n.db.assets[id].body)
    ensures Told(n)
  {
    forall x <- n.db.assets ensures Agrees(n.db.assets[x].body, HistoryOf(n, x)) {
      if x == id {
        HistoryEmpty(n.db.assignments, n.log, t, id);
      } else {
        assert Agrees(o.db.assets[x].body, HistoryOf(o, x));
      }
    }
  }

  lemma EditAssetTold(o: Office, n: Office, t: string, id: string)
    requires Told(o) && Has(o.db.assets, t, id) && Put(o.db, n.db, t, id)
    requires n.db.assignments == o.db.assignments && n.log == o.log
    requires SameHolder(o.db.assets[id].body, n.db.assets[id].body)
    ensures Told(n)
  {
    forall x <- n.db.assets ensures Agrees(n.db.assets[x].body, HistoryOf(n, x)) {
      assert Agrees(o.db.assets[x].body, HistoryOf(o, x));
    }
  }

  lemma DroppedHistory(o: Office, n: Office, t: string, id: string, x: string)
    requires n.db.assets == o.db.assets - {id} && n.log == o.log && x in n.db.assets
    requires n.db.assignments == DropAssignments(o.db.assignments, t, {id})
    ensures HistoryOf(n, x) == HistoryOf(o, x)
  {
    HistorySame(o.db.assignments, n.db.assignments, o.log, o.db.assets[x].tenant, x);
  }

  lemma DroppedTold(o: Office, n: Office, t: string, id: string)
    requires Told(o) && Has(o.db.assets, t, id) && n.db.assets == o.db.assets - {id} && n.log == o.log
    requires n.db.assignments == DropAssignments(o.db.assignments, t, {id})
    ensures Told(n)
  {
    assert Owned(n);
    hide Owned, HistoryOf, Agrees, DropAssignments;
    forall x <- n.db.assets ensures Agrees(n.db.assets[x].body, HistoryOf(n, x)) {
      assert Agrees(o.db.assets[x].body, HistoryOf(o, x));
      DroppedHistory(o, n, t, id, x);
    }
  }

  lemma DropAssetTold(o: Office, t: string, id: string)
    requires Told(o)
    ensures Told(Next(o, DropAsset(t, id)))
  {
    hide Told;
    if Has(o.db.assets, t, id) { DroppedTold(o, Next(o, DropAsset(t, id)), t, id); }
  }

  // ---- assigning

  /** The asset has been saved, so what follows must not fail. */
  predicate Saved(o: Office, t: string, id: string, a: Asset, f: Faults, now: Time) {
    id in o.db.assets && f.update && SaveAsset(o, o.db.assets[id].(body := a), now).0 == OK
  }

  predicate Assigns(o: Office, t: string, id: string, u: string, known: bool, f: Faults, now: Time) {
    AssignCheck(o, t, id, u, known) == Ok && Saved(o, t, id, TakenBy(o.db.assets[id].body, u), f, now)
  }

  predicate Unassigns(o: Office, t: string, id: string, l: string, f: Faults, now: Time) {
    UnassignCheck(o, t, id, l) == Ok && Saved(o, t, id, PutBack(o.db.assets[id].body, l), f, now)
  }

  /** A write fails after the asset was saved. */
  predicate Late(o: Office, op: Op) {
    match op
    case CheckOut(t, id, u, known, row, notes, now, f) => Assigns(o, t, id, u, known, f, now) && !f.insert
    case CheckIn(t, id, l, row, notes, now, f) => Unassigns(o, t, id, l, f, now) && !(f.close && f.insert)
    case _ => false
  }

  /** A minted id is new. */
  predicate Fresh(o: Office, op: Op) { op.CheckOut? || op.CheckIn? ==> op.row !in o.log }

  /** The same rows of the same assets, perhaps closed. */
  ghost predicate SameRows(t: Table<Assignment>, c: Table<Assignment>) {
    c.Keys == t.Keys && forall y <- t :: c[y].tenant == t[y].tenant && c[y].body.asset == t[y].body.asset
  }

  /** No other asset's history tells the tables apart. */
  ghost predicate SameElsewhere(t: Table<Assignment>, c: Table<Assignment>, log: seq<string>, id: string) {
    forall tenant, x | x != id :: History(c, log, tenant, x) == History(t, log, tenant, x)
  }

  /** One asset saved and one row added to its history. */
  ghost predicate Adds(o: Office, n: Office, c: Table<Assignment>, r: Row<Assignment>) {
    && Has(o.db.assets, r.tenant, r.body.asset) && Put(o.db, n.db, r.tenant, r.body.asset)
    && n.db.assignments == c[r.id := r] && n.log == o.log + [r.id] && r.id !in o.log
  }

  lemma AddsTold(o: Office, n: Office, c: Table<Assignment>, r: Row<Assignment>)
    requires Told(o) && Adds(o, n, c, r) && SameRows(o.db.assignments, c)
    requires SameElsewhere(o.db.assignments, c, o.log, r.body.asset)
    requires Agrees(n.db.assets[r.body.asset].body, History(c, o.log, r.tenant, r.body.asset) + [r.body])
    ensures Told(n)
  {
    assert Owned(n);
    forall x <- n.db.assets ensures Agrees(n.db.assets[x].body, HistoryOf(n, x)) { AddsAgrees(o, n, c, r, x); }
  }

  lemma AddsAgrees(o: Office, n: Office, c: Table<Assignment>, r: Row<Assignment>, x: string)
    requires Told(o) && Adds(o, n, c, r) && SameElsewhere(o.db.assignments, c, o.log, r.body.asset) && x in n.db.assets
    requires Agrees(n.db.assets[r.body.asset].body, History(c, o.log, r.tenant, r.body.asset) + [r.body])
    ensures Agrees(n.db.assets[x].body, HistoryOf(n, x))
  {
    var tenant := n.db.assets[x].tenant;
    HistoryInserted(c, o.log, r, tenant, x);
    if x == r.body.asset {
      assert HistoryOf(n, x) == History(c, o.log, tenant, x) + [r.body];
    } else {
      assert x in o.db.assets && n.db.assets[x] == o.db.assets[x];
      assert Agrees(o.db.assets[x].body, HistoryOf(o, x));
      assert HistoryOf(n, x) == History(c, o.log, tenant, x) == HistoryOf(o, x);
    }
  }

  lemma AssignTold(o: Office, t: string, id: string, u: string, known: bool, row: NewId, notes: string, now: Time,
                   f: Faults)
    requires Sound(o.db) && Told(o) && row !in o.log && Assigns(o, t, id, u, known, f, now) && f.insert
    ensures Told(Assign(o, t, id, u, known, row, notes, now, f).1)
  {
    var a := o.db.assets[id];
    var h := HistoryOf(o, id);
    var r := Row(row, t, now, 0, Assignment(id, u, DONE, None, notes));
    var n := Assign(o, t, id, u, known, row, notes, now, f).1;
    assert Agrees(a.body, h) && a.body.status != ASSIGNED by { assert |DEPLOYABLE| != |ASSIGNED|; }
    SaveWrites(o, a.(body := TakenBy(a.body, u)), now);
    TakenOut(h, r.body);
    assert row !in o.db.assignments;
    hide SaveAsset, Sound, Told, Agrees, Alternates, Assignee;
    var m := SaveAsset(o, a.(body := TakenBy(a.body, u)), now).1;
    PutAndHistory(o.db, m.db, n.db, t, id);
    AgreesTaken(n.db.assets[id].body, h + [r.body]);
    AddsTold(o, n, o.db.assignments, r);
  }

  lemma AgreesTaken(a: Asset, h: seq<Assignment>)
    requires Alternates(h) && a.user == Assignee(h) != "" && a.status == ASSIGNED && a.location == ""
    ensures Agrees(a, h)
  {
  }

  lemma AgreesBack(a: Asset, h: seq<Assignment>)
    requires Alternates(h) && a.user == Assignee(h) == "" && a.status == DEPLOYABLE
    ensures Agrees(a, h)
  {
    assert |DEPLOYABLE| != |ASSIGNED|;
  }

  lemma ClosedElsewhere(t: Table<Assignment>, log: seq<string>, tenant: string, id: string, now: Time)
    ensures SameRows(t, CloseActive(t, tenant, id, now)) && SameElsewhere(t, CloseActive(t, tenant, id, now), log, id)
  {
    var c := CloseActive(t, tenant, id, now);
    forall tn, x | x != id ensures History(c, log, tn, x) == History(t, log, tn, x) { HistorySame(t, c, log, tn, x); }
  }

  lemma UnassignTold(o: Office, t: string, id: string, l: string, row: NewId, notes: string, now: Time, f: Faults)
    requires Sound(o.db) && Told(o) && row !in o.log && Unassigns(o, t, id, l, f, now) && f.close && f.insert
    ensures Told(Unassign(o, t, id, l, row, notes, now, f).1)
  {
    var a := o.db.assets[id];
    var h := HistoryOf(o, id);
    var r := Row(row, t, now, 0, Assignment(id, a.body.user, RETURNED, Some(now), notes));
    var n := Unassign(o, t, id, l, row, notes, now, f).1;
    var c := CloseActive(o.db.assignments, t, id, now);
    assert Agrees(a.body, h);
    SaveWrites(o, a.(body := PutBack(a.body, l)), now);
    BroughtBack(h, r.body, now);
    HistoryClosed(o.db.assignments, o.log, t, id, now);
    ClosedElsewhere(o.db.assignments, o.log, t, id, now);
    assert row !in o.db.assignments;
    hide SaveAsset, Sound, Told, Agrees, Alternates, Assignee, CloseActive, SameElsewhere;
    var m := SaveAsset(o, a.(body := PutBack(a.body, l)), now).1;
    PutAndHistory(o.db, m.db, n.db, t, id);
    AgreesBack(n.db.assets[id].body, CloseAll(h, now) + [r.body]);
    AddsTold(o, n, c, r);
  }

  // ---- exactly when the history agrees

  lemma LateAssignBreaks(o: Office, t: string, id: string, u: string, known: bool, row: NewId, notes: string,
                         now: Time, f: Faults)
    requires Sound(o.db) && Told(o) && Assigns(o, t, id, u, known, f, now) && !f.insert
    ensures !Told(Assign(o, t, id, u, known, row, notes, now, f).1)
  {
    var a := o.db.assets[id];
    assert Agrees(a.body, HistoryOf(o, id)) && a.body.status != ASSIGNED by { assert |DEPLOYABLE| != |ASSIGNED|; }
    SaveWrites(o, a.(body := TakenBy(a.body, u)), now);
    var n := Assign(o, t, id, u, known, row, notes, now, f).1;
    assert HistoryOf(n, id) == HistoryOf(o, id);
    assert !Agrees(n.db.assets[id].body, HistoryOf(n, id));
  }

  lemma LateUnassignBreaks(o: Office, t: string, id: string, l: string, row: NewId, notes: string, now: Time, f: Faults)
    requires Sound(o.db) && Told(o) && Unassigns(o, t, id, l, f, now) && !(f.close && f.insert)
    ensures !Told(Unassign(o, t, id, l, row, notes, now, f).1)
  {
    var a := o.db.assets[id];
    var h := HistoryOf(o, id);
    assert Agrees(a.body, h);
    SaveWrites(o, a.(body := PutBack(a.body, l)), now);
    BroughtBack(h, Assignment(id, a.body.user, RETURNED, Some(now), notes), now);
    HistoryClosed(o.db.assignments, o.log, t, id, now);
    hide SaveAsset, CloseActive, Alternates, Sound;
    var n := Unassign(o, t, id, l, row, notes, now, f).1;
    assert HistoryOf(n, id) == if f.close then CloseAll(h, now) else h;
    hide Unassign;
    assert n.db.assets[id].body.user == "" && Assignee(HistoryOf(n, id)) == a.body.user != "";
    assert !Agrees(n.db.assets[id].body, HistoryOf(n, id));
  }

  lemma AssetsTold(o: Office, op: Op)
    requires Sound(o.db) && Told(o) && (op.NewAsset? || op.EditAsset?)
    ensures Told(Next(o, op))
  {
    var n := Next(o, op);
    if op.NewAsset? && |op.tags| == ATTEMPTS {
      NewAssetMade(o.db, op.tenant, op.id, op.input, op.tags, op.now);
      hide CreateAsset, Put, Told, Sound;
      if n != o { NewAssetTold(o, n, op.tenant, op.id); }
    } else if op.EditAsset? {
      EditAssetWrites(o.db, op.tenant, op.asset, op.input, op.now);
      hide UpdateAsset, Put, Told, Sound;
      if n != o { EditAssetTold(o, n, op.tenant, op.asset); }
    }
  }

  lemma NodesTold(o: Office, op: Op)
    requires Told(o) && !(op.NewAsset? || op.EditAsset? || op.DropAsset? || op.CheckOut? || op.CheckIn?)
    ensures Told(Next(o, op))
  {
    hide CreateNode, UpdateNode, Told, Blocked;
    SameStoryTold(o, Next(o, op));
  }

  /** A call keeps every asset in agreement with its history exactly when no write of an
      assignment or a return fails after the asset itself was saved. */
  lemma AgreesExactly(o: Office, op: Op)
    requires Sound(o.db) && Told(o) && Fresh(o, op)
    ensures Told(Next(o, op)) <==> !Late(o, op)
  {
    match op
    case CheckOut(t, id, u, known, row, notes, now, f) =>
      if Assigns(o, t, id, u, known, f, now) {
        hide Assign, Told, Sound, Assigns;
        if f.insert {
          AssignTold(o, t, id, u, known, row, notes, now, f);
        } else {
          LateAssignBreaks(o, t, id, u, known, row, notes, now, f);
        }
      } else {
        AssignRefused(o, t, id, u, known, row, notes, now, f);
      }
    case CheckIn(t, id, l, row, notes, now, f) =>
      if Unassigns(o, t, id, l, f, now) {
        hide Unassign, Told, Sound, Unassigns;
        if f.close && f.insert {
          UnassignTold(o, t, id, l, row, notes, now, f);
        } else {
          LateUnassignBreaks(o, t, id, l, row, notes, now, f);
        }
      } else {
        UnassignRefused(o, t, id, l, row, notes, now, f);
      }
    case DropAsset(t, id) => DropAssetTold(o, t, id);
    case NewAsset(_, _, _, _, _) => hide Next, Told, Sound; AssetsTold(o, op);
    case EditAsset(_, _, _, _) => hide Next, Told, Sound; AssetsTold(o, op);
    case _ => hide Next, Told, Sound; NodesTold(o, op);
  }

  lemma AssignRefused(o: Office, t: string, id: string, u: string, known: bool, row: NewId, notes: string, now: Time,
                      f: Faults)
    requires Sound(o.db) && !Assigns(o, t, id, u, known, f, now)
    ensures Assign(o, t, id, u, known, row, notes, now, f).1 == o
  {
  }

  lemma UnassignRefused(o: Office, t: string, id: string, l: string, row: NewId, notes: string, now: Time, f: Faults)
    requires Sound(o.db) && !Unassigns(o, t, id, l, f, now)
    ensures Unassign(o, t, id, l, row, notes, now, f).1 == o
  {
  }

  /** A run with new row ids and no such failure. */
  ghost predicate Clean(o: Office, ops: seq<Op>) {
    ops != [] ==>
      var front, op := ops[..|ops| - 1], ops[|ops| - 1];
      Clean(o, front) && Fresh(Run(o, front), op) && !Late(Run(o, front), op)
  }

  /** Over every such run every asset agrees with its history. */
  lemma {:induction false} AlwaysTold(o: Office, ops: seq<Op>)
    requires Sound(o.db) && Told(o) && Clean(o, ops)
    ensures Told(Run(o, ops))
  {
    if ops != [] {
      AlwaysTold(o, ops[..|ops| - 1]);
      AlwaysSound(o, ops[..|ops| - 1]);
      hide Next, Sound, Told, Late, Fresh;
      AgreesExactly(Run(o, ops[..|ops| - 1]), ops[|ops| - 1]);
    }
  }

  const EMPTY := Db(map[], map[], map[], map[], map[], map[], map[], map[], map[], map[])

  /** From an empty store: an asset is assigned exactly when it has a user, exactly when
      one row of its history is open, and that row is the user's; it then has no location;
      and its history, folded, names that user. */
  lemma HistoryTells(ops: seq<Op>, x: string)
    requires Clean(Office(EMPTY, []), ops) && x in Run(Office(EMPTY, []), ops).db.assets
    ensures var o := Run(Office(EMPTY, []), ops); var a := o.db.assets[x].body; var h := HistoryOf(o, x);
      && Alternates(h) && a.user == Assignee(h)
      && (a.status == ASSIGNED <==> a.user != "") && (a.status == ASSIGNED <==> |OpenRows(h)| == 1)
      && (a.status == ASSIGNED ==> a.location == "") && forall i <- OpenRows(h) :: h[i].user == a.user
  {
    var e := Office(EMPTY, []);
    assert Sound(e.db) by {
      assert forall t :: ParentsIn(CATEGORY_TREE, e.db.categories, t) == map[];
      assert forall t :: ParentsIn(LOCATION_TREE, e.db.locations, t) == map[];
    }
    AlwaysTold(e, ops);
    var o := Run(e, ops);
    hide Run;
    assert Agrees(o.db.assets[x].body, HistoryOf(o, x));
    OneOpenRow(o.db.assets[x].body, HistoryOf(o, x));
  }
}
