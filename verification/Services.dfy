/** The category, location and asset services over the store: what each call checks
    before it writes, and that the trees stay forests and references resolve. */
module Services {
  import opened Store
  import opened Forest

  /** A minted id is never empty. */
  type NewId = s: string | s != "" witness "0"

  datatype Outcome = Ok | Missing | Duplicate | InUse | Invalid | WrongState | StoreError

  function OutcomeOf(e: Err): Outcome {
    match e
    case OK => Ok
    case NotFound => Missing
    case Conflict => Duplicate
    case NotEmpty => InUse
    case Failed => StoreError
  }

  // ---- trees

  /** What the two tree tables have in common. */
  datatype Tree<!B> = Tree(kind: Kind<B>, parent: B -> string, name: B -> string)

  const CATEGORY_TREE: Tree<Category> := Tree(CATEGORIES, (b: Category) => b.parent, (b: Category) => b.name)
  const LOCATION_TREE: Tree<Location> := Tree(LOCATIONS, (b: Location) => b.parent, (b: Location) => b.name)

  /** Filling in defaults does not move a node. */
  ghost predicate StaysPut<B(!new)>(k: Tree<B>) {
    forall b: B :: k.parent(k.kind.fill(b)) == k.parent(b) == k.parent(k.kind.refill(b))
  }

  /** A tenant's nodes and the parents they name. */
  function ParentsIn<B>(k: Tree<B>, t: Table<B>, tenant: string): Parents {
    map x | x in t && t[x].tenant == tenant :: k.parent(t[x].body)
  }

  ghost predicate IsForest(p: Parents) { Acyclic(p) && Forest.Closed(p) }

  predicate ValidName(name: string) { 0 < |name| <= 200 }

  predicate ParentExists<B>(t: Table<B>, tenant: string, parent: string) { parent == "" || Has(t, tenant, parent) }

  function CreateNode<B>(k: Tree<B>, t: Table<B>, tenant: string, id: NewId, body: B, now: Time): (Outcome, Table<B>) {
    if !ValidName(k.name(body)) || !ParentExists(t, tenant, k.parent(body)) then (Invalid, t)
    else
      var r := Store.Create(k.kind, t, Row(id, tenant, now, now, body), id, now);
      (OutcomeOf(r.err), r.value)
  }

  /** The new parent is neither the node nor below it. */
  ghost predicate MayHang(p: Parents, id: string, parent: string) { parent != id && !Above(p, id, parent) }

  ghost function UpdateNode<B>(k: Tree<B>, t: Table<B>, tenant: string, id: string, body: B, now: Time)
    : (Outcome, Table<B>)
  {
    var parent := k.parent(body);
    if !ValidName(k.name(body)) then (Invalid, t)
    else if !Has(t, tenant, id) then (Missing, t)
    else if parent != "" && !(MayHang(ParentsIn(k, t, tenant), id, parent) && Has(t, tenant, parent)) then (Invalid, t)
    else
      var r := Store.Update(k.kind, t, Row(id, tenant, t[id].created, now, body), now);
      (OutcomeOf(r.err), r.value)
  }

  /** The update as the program makes it, walking up from the new parent. */
  method EditNode<B>(k: Tree<B>, t: Table<B>, tenant: string, id: string, body: B, now: Time)
    returns (e: Outcome, n: Table<B>)
    requires Keyed(t)
    ensures (e, n) == UpdateNode(k, t, tenant, id, body, now)
  {
    if !ValidName(k.name(body)) {
      return Invalid, t;
    }
    if !Has(t, tenant, id) {
      return Missing, t;
    }
    var parent := k.parent(body);
    if parent != "" {
      if parent == id || !Has(t, tenant, parent) {
        return Invalid, t;
      }
      var parents := ParentsIn(k, t, tenant);
      var above := IsAncestor(parents, id, parent);
      assert Walk(parents) == parents;
      if above {
        return Invalid, t;
      }
    }
    var r := Store.Update(k.kind, t, Row(id, tenant, t[id].created, now, body), now);
    return OutcomeOf(r.err), r.value;
  }

  lemma {:induction false} NothingAboveEmpty(p: Parents, id: string, k: nat)
    requires "" !in p && k > 0
    ensures !Reaches(p, "", id, k)
  {
  }

  lemma HangKeepsForest(p: Parents, id: string, parent: string)
    requires IsForest(p) && id != "" && (parent == "" || (parent in p && MayHang(p, id, parent)))
    ensures IsForest(p[id := parent])
  {
    if parent == "" { forall k: nat | k > 0 ensures !Reaches(p, "", id, k) { NothingAboveEmpty(p, id, k); } }
    ReparentKeepsAcyclic(p, id, parent);
  }

  lemma NewMayHang(p: Parents, id: string, parent: string)
    requires Forest.Closed(p) && id !in p && id != "" && (parent == "" || parent in p)
    ensures MayHang(p, id, parent)
  {
    forall k: nat ensures !Reaches(p, parent, id, k) { NothingAboveIsNew(p, id, parent, k); }
  }

  /** A node is created exactly when its name is valid, its parent exists, and neither its id nor
      its unique columns are taken; it is then stored as given, with its defaults. */
  lemma CreatesExactly<B(!new)>(k: Tree<B>, t: Table<B>, tenant: string, id: NewId, body: B, now: Time)
    ensures var (e, n) := CreateNode(k, t, tenant, id, body, now);
      && (e == Ok <==>
            && 0 < |k.name(body)| <= 200 && (k.parent(body) == "" || Has(t, tenant, k.parent(body))) && id !in t
            && forall x <- t :: t[x].tenant == tenant ==> !k.kind.clash(t[x].body, body))
      && n == if e == Ok then t[id := Row(id, tenant, now, now, k.kind.fill(body))] else t
  {
  }

  /** A node is updated exactly when its name is valid, it is the tenant's, its new parent exists
      and is neither itself nor below it, and no other row has its unique columns; it is then
      stored as given, with its creation time. */
  lemma UpdatesExactly<B(!new)>(k: Tree<B>, t: Table<B>, tenant: string, id: string, body: B, now: Time)
    ensures var (e, n) := UpdateNode(k, t, tenant, id, body, now);
      && (e == Ok <==>
            && 0 < |k.name(body)| <= 200 && Has(t, tenant, id)
            && (k.parent(body) == "" ||
                (Has(t, tenant, k.parent(body)) && k.parent(body) != id
                 && !Above(ParentsIn(k, t, tenant), id, k.parent(body))))
            && forall x <- t :: x != id && t[x].tenant == tenant ==> !k.kind.clash(t[x].body, body))
      && n == if e == Ok then t[id := Row(id, tenant, t[id].created, now, k.kind.refill(body))] else t
  {
  }

  /** A table in which every tenant's nodes form a forest. */
  ghost predicate Forests<B(!new)>(k: Tree<B>, t: Table<B>) {
    Keyed(t) && forall tenant :: IsForest(ParentsIn(k, t, tenant))
  }

  lemma SetParent<B>(k: Tree<B>, t: Table<B>, id: string, r: Row<B>, tenant: string)
    requires id in t ==> t[id].tenant == r.tenant
    ensures ParentsIn(k, t[id := r], tenant) == if tenant == r.tenant then ParentsIn(k, t,
        tenant)[id := k.parent(r.body)] else ParentsIn(k, t, tenant)
  {
  }

  lemma SetKeepsForests<B(!new)>(k: Tree<B>, t: Table<B>, id: string, r: Row<B>)
    requires Forests(k, t) && r.id == id && id != "" && (id in t ==> t[id].tenant == r.tenant)
    requires IsForest(ParentsIn(k, t, r.tenant)[id := k.parent(r.body)])
    ensures Forests(k, t[id := r])
  {
    var n := t[id := r];
    forall tenant ensures IsForest(ParentsIn(k, n, tenant)) {
      SetParent(k, t, id, r, tenant);
      assert IsForest(ParentsIn(k, t, tenant));
    }
  }

  lemma CreateKeepsForests<B(!new)>(k: Tree<B>, t: Table<B>, tenant: string, id: NewId, body: B, now: Time)
    requires StaysPut(k) && Forests(k, t)
    ensures var (e, n) := CreateNode(k, t, tenant, id, body, now); Forests(k, n) && (e != Ok ==> n == t)
  {
    var (e, n) := CreateNode(k, t, tenant, id, body, now);
    if e == Ok {
      var p := ParentsIn(k, t, tenant);
      assert IsForest(p) && n == t[id := n[id]] && n[id].id == id && n[id].tenant == tenant;
      assert k.parent(n[id].body) == k.parent(body);
      NewMayHang(p, id, k.parent(body));
      HangKeepsForest(p, id, k.parent(body));
      hide CreateNode, Forests, IsForest;
      SetKeepsForests(k, t, id, n[id]);
    }
  }

  lemma UpdateKeepsForests<B(!new)>(k: Tree<B>, t: Table<B>, tenant: string, id: string, body: B, now: Time)
    requires StaysPut(k) && Forests(k, t)
    ensures var (e, n) := UpdateNode(k, t, tenant, id, body, now); Forests(k, n) && (e != Ok ==> n == t)
  {
    var (e, n) := UpdateNode(k, t, tenant, id, body, now);
    if e == Ok {
      var p := ParentsIn(k, t, tenant);
      assert IsForest(p) && n == t[id := n[id]] && n[id].id == id && n[id].tenant == tenant;
      assert k.parent(n[id].body) == k.parent(body);
      HangKeepsForest(p, id, k.parent(body));
      hide UpdateNode, Forests, IsForest;
      SetKeepsForests(k, t, id, n[id]);
    }
  }

  /** The guard refuses no more than it must: a refused parent that exists would make a cycle. */
  lemma RefusedWouldCycle<B>(k: Tree<B>, t: Table<B>, tenant: string, id: string, body: B, now: Time)
    requires ValidName(k.name(body)) && Has(t, tenant, id) && Has(t, tenant, k.parent(body)) && k.parent(body) != ""
    requires UpdateNode(k, t, tenant, id, body, now).0 == Invalid
    ensures !Acyclic(ParentsIn(k, t, tenant)[id := k.parent(body)])
  {
    ReparentOntoDescendant(ParentsIn(k, t, tenant), id, k.parent(body));
  }

  lemma RemoveKeepsForests<B(!new)>(k: Tree<B>, t: Table<B>, tenant: string, id: string)
    requires Forests(k, t) && Has(t, tenant, id) && forall x <- t :: t[x].tenant == tenant ==> k.parent(t[x].body) != id
    ensures Forests(k, t - {id})
  {
    forall u ensures IsForest(ParentsIn(k, t - {id}, u)) {
      var p := ParentsIn(k, t, u);
      assert IsForest(p);
      assert ParentsIn(k, t - {id}, u) == if u == tenant then p - {id} else p;
      RemoveKeepsAcyclic(p, id);
    }
  }

  // ---- assets

  const DEPLOYABLE := "deployable"
  const ASSIGNED := "assigned"
  const BROKEN := "broken"
  const ARCHIVED := "archived"

  predicate ValidStatus(s: string) { s == "" || s == DEPLOYABLE || s == ASSIGNED || s == BROKEN || s == ARCHIVED }

  predicate ValidTag(tag: string) { 0 < |tag| <= 64 && forall c <- tag :: ' ' < c && c != '\U{007F}' }

  predicate ValidAsset(a: Asset) {
    ValidName(a.name) && (a.tag != "" ==> ValidTag(a.tag)) && ValidStatus(a.status) && 0.0 <= a.rate <= 1.0
  }

  predicate RefsExist(db: Db, tenant: string, a: Asset) {
    ParentExists(db.categories, tenant, a.category) && ParentExists(db.suppliers, tenant,
        a.supplier) && ParentExists(db.locations, tenant, a.location)
  }

  function WithDefaults(a: Asset): Asset {
    a.(status := if a.status == "" then DEPLOYABLE else a.status, rate := if a.rate <= 0.0 then 0.40 else a.rate)
  }

  const ATTEMPTS := 6

  /** Tries made-up tags until one is free, at most so many times. */
  function CreateAuto(t: Table<Asset>, r: Row<Asset>, tags: seq<string>, now: Time): Reply<Table<Asset>>
    requires tags != []
  {
    var reply := Store.Create(ASSETS, t, r.(body := r.body.(tag := tags[0])), r.id, now);
    if reply.err == Conflict && |tags| > 1 then CreateAuto(t, r, tags[1..], now) else reply
  }

  function CreateAsset(db: Db, tenant: string, id: NewId, input: Asset, tags: seq<string>, now: Time): (Outcome, Db)
    requires |tags| == ATTEMPTS
  {
    if !ValidAsset(input) || input.status == ASSIGNED || !RefsExist(db, tenant, input) then (Invalid, db)
    else
      var r := Row(id, tenant, now, now, WithDefaults(input.(user := "")));
      var reply :=
        if input.tag == "" then CreateAuto(db.assets, r, tags, now)
        else Store.Create(ASSETS, db.assets, r, id, now);
      (OutcomeOf(reply.err), db.(assets := reply.value))
  }

  /** The fields of an update, with what the lifecycle owns kept. */
  function Updated(was: Asset, input: Asset): Asset {
    var a := WithDefaults(input.(tag := if input.tag == "" then was.tag else input.tag));
    if was.status == ASSIGNED then a.(status := ASSIGNED, user := was.user, location := "") else a.(user := "")
  }

  function UpdateAsset(db: Db, tenant: string, id: string, input: Asset, now: Time): (Outcome, Db) {
    if !ValidAsset(input) || input.status == ASSIGNED || !RefsExist(db, tenant, input) then (Invalid, db)
    else if !Has(db.assets, tenant, id) then (Missing, db)
    else
      var was := db.assets[id];
      var r := Store.Update(ASSETS, db.assets, was.(body := Updated(was.body, input)), now);
      (OutcomeOf(r.err), db.(assets := r.value))
  }

  /** No asset of the tenant has the tag. */
  ghost predicate TagFree(t: Table<Asset>, tenant: string, tag: string) {
    forall x <- t :: t[x].tenant == tenant ==> t[x].body.tag != tag
  }

  /** The row as stored under a tag. */
  function Tagged(r: Row<Asset>, tag: string, now: Time): Row<Asset> {
    Row(r.id, r.tenant, if r.created == 0 then now else r.created, now,
        r.body.(tag := tag, rate := if r.body.rate == 0.0 then 0.40 else r.body.rate))
  }

  lemma TriesTag(t: Table<Asset>, r: Row<Asset>, tag: string, now: Time)
    requires r.id != "" && r.body.status != ""
    ensures Store.Create(ASSETS, t, r.(body := r.body.(tag := tag)), r.id, now) ==
      if r.id !in t && TagFree(t, r.tenant, tag) then Reply(OK, t[r.id := Tagged(r, tag, now)]) else Reply(Conflict, t)
  {
  }

  lemma {:induction false} AutoStores(t: Table<Asset>, r: Row<Asset>, tags: seq<string>, now: Time)
    requires tags != [] && r.id != "" && r.body.status != ""
    ensures var reply := CreateAuto(t, r, tags, now);
      && (reply.err == OK <==> r.id !in t && exists tag <- tags :: TagFree(t, r.tenant, tag))
      && (reply.err != OK ==> reply.value == t)
      && (reply.err == OK ==>
            && r.id in reply.value
            && var tag := reply.value[r.id].body.tag;
               tag in tags && TagFree(t, r.tenant, tag) && reply.value == t[r.id := Tagged(r, tag, now)])
  {
    TriesTag(t, r, tags[0], now);
    hide Store.Create, TagFree;
    assert forall tag <- tags :: tag == tags[0] || tag in tags[1..];
    if |tags| > 1 { AutoStores(t, r, tags[1..], now); }
  }

  /** What is stored of an asset that is created. */
  predicate Fresh(input: Asset, a: Asset) {
    && a == input.(tag := a.tag, user := "", status := a.status, rate := a.rate)
    && a.status == (if input.status == "" then "deployable" else input.status)
    && a.rate == (if input.rate == 0.0 then 0.40 else input.rate)
    && (input.tag != "" ==> a.tag == input.tag)
  }

  /** The tag given is free, or one of those made up if none is given. */
  ghost predicate SomeTagFree(t: Table<Asset>, tenant: string, tag: string, tags: seq<string>) {
    if tag == "" then exists g <- tags :: TagFree(t, tenant, g) else TagFree(t, tenant, tag)
  }

  lemma TagChosen(t: Table<Asset>, r: Row<Asset>, tags: seq<string>, now: Time)
    requires tags != [] && r.id != "" && r.body.status != ""
    ensures var reply :=
        if r.body.tag == "" then CreateAuto(t, r, tags, now) else Store.Create(ASSETS, t, r, r.id, now);
      && (reply.err == OK <==> r.id !in t && SomeTagFree(t, r.tenant, r.body.tag, tags))
      && (reply.err != OK ==> reply.value == t)
      && (reply.err == OK ==>
            && r.id in reply.value
            && var tag := reply.value[r.id].body.tag;
               && (if r.body.tag == "" then tag in tags else tag == r.body.tag)
               && TagFree(t, r.tenant, tag) && reply.value == t[r.id := Tagged(r, tag, now)])
  {
    AutoStores(t, r, tags, now);
    TriesTag(t, r, r.body.tag, now);
    assert r.(body := r.body.(tag := r.body.tag)) == r;
    hide Store.Create, CreateAuto, TagFree;
  }

  lemma TaggedIsFresh(tenant: string, id: NewId, input: Asset, tag: string, now: Time)
    requires (input.tag != "" ==> tag == input.tag) && 0.0 <= input.rate
    ensures var m := Tagged(Row(id, tenant, now, now, WithDefaults(input.(user := ""))), tag, now);
      m == Row(id, tenant, now, now, m.body) && m.body.tag == tag && Fresh(input, m.body)
  {
  }

  /** An asset is created exactly when it is valid, not assigned, what it refers to exists, and a
      tag is free; it is stored as given, with nobody and its defaults, under that tag. */
  lemma AssetCreated(db: Db, tenant: string, id: NewId, input: Asset, tags: seq<string>, now: Time)
    requires |tags| == ATTEMPTS
    ensures var (e, n) := CreateAsset(db, tenant, id, input, tags, now);
      && (e == Ok <==>
            && ValidAsset(input) && input.status != "assigned" && RefsExist(db, tenant, input) && id !in db.assets
            && SomeTagFree(db.assets, tenant, input.tag, tags))
      && (e != Ok ==> n == db)
      && (e == Ok ==>
            && id in n.assets && n == db.(assets := db.assets[id := n.assets[id]])
            && n.assets[id] == Row(id, tenant, now, now, n.assets[id].body) && Fresh(input, n.assets[id].body)
            && (input.tag == "" ==> n.assets[id].body.tag in tags)
            && TagFree(db.assets, tenant, n.assets[id].body.tag))
  {
    if ValidAsset(input) && input.status != ASSIGNED && RefsExist(db, tenant, input) {
      var r := Row(id, tenant, now, now, WithDefaults(input.(user := "")));
      TagChosen(db.assets, r, tags, now);
      var (e, n) := CreateAsset(db, tenant, id, input, tags, now);
      hide CreateAuto, RefsExist, Store.Create, SomeTagFree, TagFree, Tagged, Fresh;
      if e == Ok { TaggedIsFresh(tenant, id, input, n.assets[id].body.tag, now); }
    }
  }

  lemma SavesAsset(t: Table<Asset>, tenant: string, id: string, a: Asset, now: Time)
    requires Keyed(t) && Has(t, tenant, id)
    ensures Store.Update(ASSETS, t, t[id].(body := a), now) ==
      if TagFree(t - {id}, tenant, a.tag)
      then Reply(OK, t[id := Row(id, tenant, t[id].created, now, a.(rate := if a.rate == 0.0 then 0.40 else a.rate))])
      else Reply(Conflict, t)
  {
    if x :| x in t && x != id && t[x].tenant == tenant && t[x].body.tag == a.tag { assert x in t - {id}; }
  }

  /** An update keeps what the lifecycle owns: an assigned asset stays assigned, to its user and
      nowhere; any other has no user. All else is stored as given, with the tag kept if none is
      given, and the defaults. */
  lemma AssetUpdated(db: Db, tenant: string, id: string, input: Asset, now: Time)
    requires Keyed(db.assets)
    ensures var (e, n) := UpdateAsset(db, tenant, id, input, now);
      && (e == Ok <==>
            && ValidAsset(input) && input.status != "assigned" && RefsExist(db, tenant, input)
            && Has(db.assets, tenant, id)
            && TagFree(db.assets - {id}, tenant, if input.tag == "" then db.assets[id].body.tag else input.tag))
      && (e != Ok ==> n == db)
      && (e == Ok ==>
            var was, a := db.assets[id], n.assets[id].body;
            && n == db.(assets := db.assets[id := Row(id, tenant, was.created, now, a)])
            && a == input.(tag := a.tag, user := a.user, status := a.status, location := a.location, rate := a.rate)
            && a.tag == (if input.tag == "" then was.body.tag else input.tag)
            && a.rate == (if input.rate == 0.0 then 0.40 else input.rate)
            && (if was.body.status == "assigned"
                then a.status == "assigned" && a.user == was.body.user && a.location == ""
                else a.status == (if input.status == "" then "deployable" else input.status)
                     && a.user == "" && a.location == input.location))
  {
    if ValidAsset(input) && input.status != ASSIGNED && RefsExist(db, tenant, input) && Has(db.assets, tenant, id) {
      SavesAsset(db.assets, tenant, id, Updated(db.assets[id].body, input), now);
      hide RefsExist, Store.Update, TagFree;
    }
  }

  /** Every category and location an asset names exists in its tenant. */
  ghost predicate AssetRefs(db: Db) {
    forall x <- db.assets :: ParentExists(db.categories, db.assets[x].tenant, db.assets[x].body.category)
                          && ParentExists(db.locations, db.assets[x].tenant, db.assets[x].body.location)
  }

  ghost predicate Sound(db: Db) {
    Forests(CATEGORY_TREE, db.categories) && Forests(LOCATION_TREE, db.locations) && Keyed(db.assets) && AssetRefs(db)
  }
}
