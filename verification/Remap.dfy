/** Fresh ids for a backup restored into another tenant: one memo, shared by all
    collections, through which every id and foreign key is rewritten. */
module Remap {
  import opened Store
  import opened Archive
  import Seqs

  type Memo = map<string, string>

  function Look(m: Memo, x: string): string { if x in m then m[x] else x }

  function LookAll(m: Memo, xs: seq<string>): (ys: seq<string>)
    ensures |ys| == |xs| && forall i :: 0 <= i < |xs| ==> ys[i] == Look(m, xs[i])
  {
    if xs == [] then [] else LookAll(m, xs[..|xs| - 1]) + [Look(m, xs[|xs| - 1])]
  }

  /** The memo after the ids have been asked for, in this order: the empty id is
      never given a name, a known one keeps its name, a new one gets the next id minted. */
  function Remember(m: Memo, x: string, mint: nat -> string): Memo {
    if x == "" || x in m then m else m[x := mint(|m|)]
  }

  function Asked(m: Memo, xs: seq<string>, mint: nat -> string): Memo {
    if xs == [] then m else Remember(Asked(m, xs[..|xs| - 1], mint), xs[|xs| - 1], mint)
  }

  // ---- the id columns of a row

  /** How the id and foreign keys of a row are read and replaced. */
  datatype Refs<!B> = Refs(get: Row<B> -> seq<string>, put: (Row<B>, seq<string>) -> Row<B>)

  /** Replacing gives back what was put in, and undoing it gives back the row. */
  ghost predicate Lawful<B(!new)>(f: Refs<B>) {
    forall r: Row<B>, v: seq<string> {:trigger f.put(r, v)} :: |v| == |f.get(r)| ==>
      f.get(f.put(r, v)) == v && f.put(f.put(r, v), f.get(r)) == r
  }

  const SUPPLIER: Refs<Supplier> := Refs(
    (r: Row<Supplier>) => [r.id],
    (r: Row<Supplier>, v: seq<string>) => if |v| == 1 then r.(id := v[0]) else r)
  const LOCATION_ID: Refs<Location> := Refs(
    (r: Row<Location>) => [r.id],
    (r: Row<Location>, v: seq<string>) => if |v| == 1 then r.(id := v[0]) else r)
  const LOCATION_PARENT: Refs<Location> := Refs(
    (r: Row<Location>) => [r.body.parent],
    (r: Row<Location>, v: seq<string>) => if |v| == 1 then r.(body := r.body.(parent := v[0])) else r)
  const LOCATION: Refs<Location> := Refs(
    (r: Row<Location>) => [r.id, r.body.parent],
    (r: Row<Location>, v: seq<string>) => if |v| == 2 then r.(id := v[0], body := r.body.(parent := v[1])) else r)
  const CATEGORY_ID: Refs<Category> := Refs(
    (r: Row<Category>) => [r.id],
    (r: Row<Category>, v: seq<string>) => if |v| == 1 then r.(id := v[0]) else r)
  const CATEGORY_PARENT: Refs<Category> := Refs(
    (r: Row<Category>) => [r.body.parent],
    (r: Row<Category>, v: seq<string>) => if |v| == 1 then r.(body := r.body.(parent := v[0])) else r)
  const CATEGORY: Refs<Category> := Refs(
    (r: Row<Category>) => [r.id, r.body.parent],
    (r: Row<Category>, v: seq<string>) => if |v| == 2 then r.(id := v[0], body := r.body.(parent := v[1])) else r)
  const ASSET: Refs<Asset> := Refs(
    (r: Row<Asset>) => [r.id, r.body.category, r.body.supplier, r.body.location],
    (r: Row<Asset>, v: seq<string>) =>
      if |v| == 4 then r.(id := v[0], body := r.body.(category := v[1], supplier := v[2], location := v[3])) else r)
  const ASSIGNMENT: Refs<Assignment> := Refs(
    (r: Row<Assignment>) => [r.id, r.body.asset],
    (r: Row<Assignment>, v: seq<string>) => if |v| == 2 then r.(id := v[0], body := r.body.(asset := v[1])) else r)
  const CONSUMABLE: Refs<Consumable> := Refs(
    (r: Row<Consumable>) => [r.id, r.body.category, r.body.supplier, r.body.location],
    (r: Row<Consumable>, v: seq<string>) =>
      if |v| == 4 then r.(id := v[0], body := r.body.(category := v[1], supplier := v[2], location := v[3])) else r)
  const LICENSE: Refs<License> := Refs(
    (r: Row<License>) => [r.id, r.body.supplier],
    (r: Row<License>, v: seq<string>) => if |v| == 2 then r.(id := v[0], body := r.body.(supplier := v[1])) else r)
  const POLICY: Refs<Policy> := Refs(
    (r: Row<Policy>) => [r.id],
    (r: Row<Policy>, v: seq<string>) => if |v| == 1 then r.(id := v[0]) else r)
  const LINK: Refs<Link> := Refs(
    (r: Row<Link>) => [r.id, r.body.policy, r.body.asset],
    (r: Row<Link>, v: seq<string>) =>
      if |v| == 3 then r.(id := v[0], body := r.body.(policy := v[1], asset := v[2])) else r)
  const DOCUMENT: Refs<Document> := Refs(
    (r: Row<Document>) => [r.id, r.body.entity],
    (r: Row<Document>, v: seq<string>) => if |v| == 2 then r.(id := v[0], body := r.body.(entity := v[1])) else r)

  lemma Spelled(v: seq<string>)
    ensures |v| == 1 ==> v == [v[0]]
    ensures |v| == 2 ==> v == [v[0], v[1]]
    ensures |v| == 3 ==> v == [v[0], v[1], v[2]]
    ensures |v| == 4 ==> v == [v[0], v[1], v[2], v[3]]
  {}

  lemma SupplierLawful()
    ensures Lawful(SUPPLIER)
  {
    forall r: Row<Supplier>, v: seq<string> | |v| == |SUPPLIER.get(r)|
      ensures SUPPLIER.get(SUPPLIER.put(r, v)) == v && SUPPLIER.put(SUPPLIER.put(r, v), SUPPLIER.get(r)) == r
    {
      Spelled(v);
    }
  }

  lemma LocationLawful()
    ensures Lawful(LOCATION)
  {
    forall r: Row<Location>, v: seq<string> | |v| == |LOCATION.get(r)|
      ensures LOCATION.get(LOCATION.put(r, v)) == v && LOCATION.put(LOCATION.put(r, v), LOCATION.get(r)) == r
    {
      Spelled(v);
    }
  }

  lemma CategoryLawful()
    ensures Lawful(CATEGORY)
  {
    forall r: Row<Category>, v: seq<string> | |v| == |CATEGORY.get(r)|
      ensures CATEGORY.get(CATEGORY.put(r, v)) == v && CATEGORY.put(CATEGORY.put(r, v), CATEGORY.get(r)) == r
    {
      Spelled(v);
    }
  }

  lemma AssetLawful()
    ensures Lawful(ASSET)
  {
    forall r: Row<Asset>, v: seq<string> | |v| == |ASSET.get(r)|
      ensures ASSET.get(ASSET.put(r, v)) == v && ASSET.put(ASSET.put(r, v), ASSET.get(r)) == r
    {
      Spelled(v);
    }
  }

  lemma AssignmentLawful()
    ensures Lawful(ASSIGNMENT)
  {
    forall r: Row<Assignment>, v: seq<string> | |v| == |ASSIGNMENT.get(r)|
      ensures ASSIGNMENT.get(ASSIGNMENT.put(r, v)) == v && ASSIGNMENT.put(ASSIGNMENT.put(r, v), ASSIGNMENT.get(r)) == r
    {
      Spelled(v);
    }
  }

  lemma ConsumableLawful()
    ensures Lawful(CONSUMABLE)
  {
    forall r: Row<Consumable>, v: seq<string> | |v| == |CONSUMABLE.get(r)|
      ensures CONSUMABLE.get(CONSUMABLE.put(r, v)) == v && CONSUMABLE.put(CONSUMABLE.put(r, v), CONSUMABLE.get(r)) == r
    {
      Spelled(v);
    }
  }

  lemma LicenseLawful()
    ensures Lawful(LICENSE)
  {
    forall r: Row<License>, v: seq<string> | |v| == |LICENSE.get(r)|
      ensures LICENSE.get(LICENSE.put(r, v)) == v && LICENSE.put(LICENSE.put(r, v), LICENSE.get(r)) == r
    {
      Spelled(v);
    }
  }

  lemma PolicyLawful()
    ensures Lawful(POLICY)
  {
    forall r: Row<Policy>, v: seq<string> | |v| == |POLICY.get(r)|
      ensures POLICY.get(POLICY.put(r, v)) == v && POLICY.put(POLICY.put(r, v), POLICY.get(r)) == r
    {
      Spelled(v);
    }
  }

  lemma LinkLawful()
    ensures Lawful(LINK)
  {
    forall r: Row<Link>, v: seq<string> | |v| == |LINK.get(r)|
      ensures LINK.get(LINK.put(r, v)) == v && LINK.put(LINK.put(r, v), LINK.get(r)) == r
    {
      Spelled(v);
    }
  }

  lemma DocumentLawful()
    ensures Lawful(DOCUMENT)
  {
    forall r: Row<Document>, v: seq<string> | |v| == |DOCUMENT.get(r)|
      ensures DOCUMENT.get(DOCUMENT.put(r, v)) == v && DOCUMENT.put(DOCUMENT.put(r, v), DOCUMENT.get(r)) == r
    {
      Spelled(v);
    }
  }

  lemma AllLawful()
    ensures Lawful(SUPPLIER) && Lawful(LOCATION) && Lawful(CATEGORY) && Lawful(ASSET) && Lawful(ASSIGNMENT)
    ensures Lawful(CONSUMABLE) && Lawful(LICENSE) && Lawful(POLICY) && Lawful(LINK) && Lawful(DOCUMENT)
  {
    hide Lawful;
    SupplierLawful();
    LocationLawful();
    CategoryLawful();
    AssetLawful();
    AssignmentLawful();
    ConsumableLawful();
    LicenseLawful();
    PolicyLawful();
    LinkLawful();
    DocumentLawful();
  }

  // ---- renaming

  function RenameRow<B>(f: Refs<B>, m: Memo, r: Row<B>): Row<B> { f.put(r, LookAll(m, f.get(r))) }

  function RenameRows<B>(f: Refs<B>, m: Memo, rows: seq<Row<B>>): (out: seq<Row<B>>)
    ensures |out| == |rows| && forall i :: 0 <= i < |rows| ==> out[i] == RenameRow(f, m, rows[i])
  {
    if rows == [] then [] else RenameRows(f, m, rows[..|rows| - 1]) + [RenameRow(f, m, rows[|rows| - 1])]
  }

  /** The id columns of all rows, in the order they are visited. */
  function Mentions<B>(f: Refs<B>, rows: seq<Row<B>>): seq<string> {
    if rows == [] then [] else Mentions(f, rows[..|rows| - 1]) + f.get(rows[|rows| - 1])
  }

  /** The document under a renaming. */
  function Rename(b: Backup, m: Memo): Backup {
    Backup(b.version, b.tenant,
           RenameRows(SUPPLIER, m, b.suppliers), RenameRows(LOCATION, m, b.locations),
           RenameRows(CATEGORY, m, b.categories), RenameRows(ASSET, m, b.assets),
           RenameRows(ASSIGNMENT, m, b.assignments), RenameRows(CONSUMABLE, m, b.consumables),
           RenameRows(LICENSE, m, b.licenses), RenameRows(POLICY, m, b.policies),
           RenameRows(LINK, m, b.links), RenameRows(DOCUMENT, m, b.documents))
  }

  /** Every id and foreign key of the document, in the order the remap visits them:
      in the two trees all ids come before all parents. */
  function Fields(b: Backup): seq<string> {
    Mentions(SUPPLIER, b.suppliers)
    + Mentions(LOCATION_ID, b.locations) + Mentions(LOCATION_PARENT, b.locations)
    + Mentions(CATEGORY_ID, b.categories) + Mentions(CATEGORY_PARENT, b.categories)
    + Mentions(ASSET, b.assets) + Mentions(ASSIGNMENT, b.assignments) + Mentions(CONSUMABLE, b.consumables)
    + Mentions(LICENSE, b.licenses) + Mentions(POLICY, b.policies) + Mentions(LINK, b.links)
    + Mentions(DOCUMENT, b.documents)
  }

  function Remapped(b: Backup, mint: nat -> string): Backup {
    Rename(b, Asked(map[], Fields(b), mint))
  }

  // ---- the memo

  ghost predicate Injective(mint: nat -> string) {
    forall i: nat, j: nat :: mint(i) == mint(j) ==> i == j
  }

  /** The ids minted are new: pairwise different, not empty, and not in use. */
  ghost predicate MintsFresh(mint: nat -> string, used: seq<string>) {
    Injective(mint) && forall i: nat :: mint(i) != "" && mint(i) !in used
  }

  /** One of the first n ids. */
  ghost predicate Minted(mint: nat -> string, y: string, n: nat) {
    exists i: nat :: i < n && mint(i) == y
  }

  /** Different ids have different names, all of them minted so far. */
  ghost predicate Names(m: Memo, mint: nat -> string) {
    && "" !in m
    && (forall x <- m :: Minted(mint, m[x], |m|))
    && (forall x <- m, y <- m :: m[x] == m[y] ==> x == y)
  }

  lemma MintedMore(mint: nat -> string, y: string, n: nat)
    requires Minted(mint, y, n) && Injective(mint)
    ensures Minted(mint, y, n + 1) && y != mint(n)
  {
    var i: nat :| i < n && mint(i) == y;
    assert i < n + 1;
  }

  lemma RememberNames(m: Memo, x: string, mint: nat -> string)
    requires Names(m, mint) && Injective(mint)
    ensures Names(Remember(m, x, mint), mint)
  {
    var m' := Remember(m, x, mint);
    if x != "" && x !in m {
      assert |m'| == |m| + 1;
      assert Minted(mint, mint(|m|), |m'|);
      hide Injective, Minted;
      forall y <- m ensures Minted(mint, m[y], |m'|) && m[y] != mint(|m|) {
        MintedMore(mint, m[y], |m|);
      }
    }
  }

  lemma {:induction false} AskedNames(m: Memo, xs: seq<string>, mint: nat -> string)
    requires Names(m, mint) && Injective(mint)
    ensures Names(Asked(m, xs, mint), mint)
  {
    hide Names, Remember, Injective;
    if xs != [] {
      AskedNames(m, xs[..|xs| - 1], mint);
      RememberNames(Asked(m, xs[..|xs| - 1], mint), xs[|xs| - 1], mint);
    }
  }

  /** A name, once given, is kept. */
  ghost predicate Extends(m: Memo, m': Memo) { forall x <- m :: x in m' && m'[x] == m[x] }

  lemma {:induction false} AskedKeeps(m: Memo, xs: seq<string>, mint: nat -> string)
    ensures Extends(m, Asked(m, xs, mint)) && ("" !in m ==> "" !in Asked(m, xs, mint))
    ensures forall x <- xs :: x != "" ==> x in Asked(m, xs, mint)
    ensures forall x <- Asked(m, xs, mint) :: x in m || x in xs
  {
    if xs != [] {
      var n := |xs| - 1;
      AskedKeeps(m, xs[..n], mint);
      assert xs == xs[..n] + [xs[n]];
    }
  }

  lemma {:induction false} AskedInTurn(m: Memo, xs: seq<string>, ys: seq<string>, mint: nat -> string)
    ensures Asked(m, xs + ys, mint) == Asked(Asked(m, xs, mint), ys, mint)
  {
    if ys == [] {
      assert xs + ys == xs;
    } else {
      var n := |ys| - 1;
      AskedInTurn(m, xs, ys[..n], mint);
      assert (xs + ys)[..|xs + ys| - 1] == xs + ys[..n];
    }
  }

  // ---- the isomorphism

  /** Distinct ids asked for get distinct new names; the empty id keeps none. */
  ghost predicate Renames(m: Memo, used: seq<string>) {
    && "" !in m
    && (forall x <- used :: x != "" ==> x in m)
    && (forall x <- m :: m[x] != "" && m[x] !in used)
    && (forall x <- m, y <- m :: m[x] == m[y] ==> x == y)
  }

  lemma MintedIsFresh(mint: nat -> string, used: seq<string>, y: string, n: nat)
    requires MintsFresh(mint, used) && Minted(mint, y, n)
    ensures y != "" && y !in used
  {
    var i: nat :| i < n && mint(i) == y;
  }

  lemma AskedRenames(xs: seq<string>, mint: nat -> string)
    requires MintsFresh(mint, xs)
    ensures Renames(Asked(map[], xs, mint), xs)
  {
    var m := Asked(map[], xs, mint);
    AskedNames(map[], xs, mint);
    AskedKeeps(map[], xs, mint);
    hide Asked, MintsFresh, Minted;
    forall x <- m ensures m[x] != "" && m[x] !in xs {
      MintedIsFresh(mint, xs, m[x], |m|);
    }
  }

  // ---- the fields of the result

  lemma {:induction false} LookAllJoins(m: Memo, a: seq<string>, b: seq<string>)
    ensures LookAll(m, a + b) == LookAll(m, a) + LookAll(m, b)
  {
    hide LookAll;
    var l, r := LookAll(m, a + b), LookAll(m, a) + LookAll(m, b);
    forall i | 0 <= i < |a + b| ensures l[i] == r[i] {}
  }

  /** Reading some columns after renaming gives their names. */
  ghost predicate Follows<B(!new)>(g: Refs<B>, f: Refs<B>, m: Memo) {
    forall r: Row<B> {:trigger RenameRow(f, m, r)} :: g.get(RenameRow(f, m, r)) == LookAll(m, g.get(r))
  }

  lemma {:induction false} MentionsRenamed<B(!new)>(g: Refs<B>, f: Refs<B>, m: Memo, rows: seq<Row<B>>)
    requires Follows(g, f, m)
    ensures Mentions(g, RenameRows(f, m, rows)) == LookAll(m, Mentions(g, rows))
  {
    if rows != [] {
      var n := |rows| - 1;
      MentionsRenamed(g, f, m, rows[..n]);
      var out := RenameRows(f, m, rows);
      assert out[..n] == RenameRows(f, m, rows[..n]) && out[n] == RenameRow(f, m, rows[n]);
      LookAllJoins(m, Mentions(g, rows[..n]), g.get(rows[n]));
    }
  }

  lemma LawfulFollows<B(!new)>(f: Refs<B>, m: Memo)
    requires Lawful(f)
    ensures Follows(f, f, m)
  {
  }

  lemma TreesFollow(m: Memo)
    ensures Follows(LOCATION_ID, LOCATION, m) && Follows(LOCATION_PARENT, LOCATION, m)
    ensures Follows(CATEGORY_ID, CATEGORY, m) && Follows(CATEGORY_PARENT, CATEGORY, m)
  {
    forall r: Row<Location> ensures LOCATION_ID.get(RenameRow(LOCATION, m, r)) == LookAll(m, LOCATION_ID.get(r))
      && LOCATION_PARENT.get(RenameRow(LOCATION, m, r)) ==
        LookAll(m, LOCATION_PARENT.get(r)) { LookTwo(m, r.id, r.body.parent); }
    forall r: Row<Category> ensures CATEGORY_ID.get(RenameRow(CATEGORY, m, r)) == LookAll(m, CATEGORY_ID.get(r))
      && CATEGORY_PARENT.get(RenameRow(CATEGORY, m, r)) ==
        LookAll(m, CATEGORY_PARENT.get(r)) { LookTwo(m, r.id, r.body.parent); }
  }

  lemma RecordFields(b: Backup, m: Memo)
    ensures Mentions(SUPPLIER, RenameRows(SUPPLIER, m, b.suppliers)) == LookAll(m, Mentions(SUPPLIER, b.suppliers))
    ensures Mentions(ASSET, RenameRows(ASSET, m, b.assets)) == LookAll(m, Mentions(ASSET, b.assets))
    ensures Mentions(ASSIGNMENT, RenameRows(ASSIGNMENT, m, b.assignments)) ==
      LookAll(m, Mentions(ASSIGNMENT, b.assignments))
    ensures Mentions(CONSUMABLE, RenameRows(CONSUMABLE, m, b.consumables)) ==
      LookAll(m, Mentions(CONSUMABLE, b.consumables))
    ensures Mentions(LICENSE, RenameRows(LICENSE, m, b.licenses)) == LookAll(m, Mentions(LICENSE, b.licenses))
    ensures Mentions(POLICY, RenameRows(POLICY, m, b.policies)) == LookAll(m, Mentions(POLICY, b.policies))
    ensures Mentions(LINK, RenameRows(LINK, m, b.links)) == LookAll(m, Mentions(LINK, b.links))
    ensures Mentions(DOCUMENT, RenameRows(DOCUMENT, m, b.documents)) == LookAll(m, Mentions(DOCUMENT, b.documents))
  {
    AllLawful();
    hide Lawful, Follows, Mentions, RenameRows;
    LawfulFollows(SUPPLIER, m); MentionsRenamed(SUPPLIER, SUPPLIER, m, b.suppliers);
    LawfulFollows(ASSET, m); MentionsRenamed(ASSET, ASSET, m, b.assets);
    LawfulFollows(ASSIGNMENT, m); MentionsRenamed(ASSIGNMENT, ASSIGNMENT, m, b.assignments);
    LawfulFollows(CONSUMABLE, m); MentionsRenamed(CONSUMABLE, CONSUMABLE, m, b.consumables);
    LawfulFollows(LICENSE, m); MentionsRenamed(LICENSE, LICENSE, m, b.licenses);
    LawfulFollows(POLICY, m); MentionsRenamed(POLICY, POLICY, m, b.policies);
    LawfulFollows(LINK, m); MentionsRenamed(LINK, LINK, m, b.links);
    LawfulFollows(DOCUMENT, m); MentionsRenamed(DOCUMENT, DOCUMENT, m, b.documents);
  }

  lemma LookAllTwelve(m: Memo, a: seq<seq<string>>)
    requires |a| == 12
    ensures LookAll(m, a[0] + a[1] + a[2] + a[3] + a[4] + a[5] + a[6] + a[7] + a[8] + a[9] + a[10] + a[11])
      == LookAll(m, a[0]) + LookAll(m, a[1]) + LookAll(m, a[2]) + LookAll(m, a[3]) + LookAll(m, a[4]) + LookAll(m, a[5])
       + LookAll(m, a[6]) + LookAll(m, a[7]) + LookAll(m, a[8]) + LookAll(m, a[9]) + LookAll(m, a[10])
       + LookAll(m, a[11])
  {
    hide LookAll;
    var s := a[0];
    LookAllJoins(m, s, a[1]); s := s + a[1];
    LookAllJoins(m, s, a[2]); s := s + a[2];
    LookAllJoins(m, s, a[3]); s := s + a[3];
    LookAllJoins(m, s, a[4]); s := s + a[4];
    LookAllJoins(m, s, a[5]); s := s + a[5];
    LookAllJoins(m, s, a[6]); s := s + a[6];
    LookAllJoins(m, s, a[7]); s := s + a[7];
    LookAllJoins(m, s, a[8]); s := s + a[8];
    LookAllJoins(m, s, a[9]); s := s + a[9];
    LookAllJoins(m, s, a[10]); s := s + a[10];
    LookAllJoins(m, s, a[11]);
  }

  /** The fields of a renamed document are the names of its fields, one by one. */
  lemma FieldsRenamed(b: Backup, m: Memo)
    ensures Fields(Rename(b, m)) == LookAll(m, Fields(b))
  {
    TreesFollow(m);
    RecordFields(b, m);
    hide Follows, Mentions, RenameRows, LookAll;
    MentionsRenamed(LOCATION_ID, LOCATION, m, b.locations);
    MentionsRenamed(LOCATION_PARENT, LOCATION, m, b.locations);
    MentionsRenamed(CATEGORY_ID, CATEGORY, m, b.categories);
    MentionsRenamed(CATEGORY_PARENT, CATEGORY, m, b.categories);
    LookAllTwelve(m, [Mentions(SUPPLIER, b.suppliers), Mentions(LOCATION_ID, b.locations),
                      Mentions(LOCATION_PARENT, b.locations), Mentions(CATEGORY_ID, b.categories),
                      Mentions(CATEGORY_PARENT, b.categories), Mentions(ASSET, b.assets),
                      Mentions(ASSIGNMENT, b.assignments), Mentions(CONSUMABLE, b.consumables),
                      Mentions(LICENSE, b.licenses), Mentions(POLICY, b.policies), Mentions(LINK, b.links),
                      Mentions(DOCUMENT, b.documents)]);
  }

  lemma TwoNames(m: Memo, used: seq<string>, x: string, y: string)
    requires Renames(m, used) && x in used && y in used
    ensures (Look(m, x) == Look(m, y) <==> x == y) && (Look(m, x) == "" <==> x == "")
    ensures (Look(m, x) != "" ==> Look(m, x) !in used)
  {
  }

  /** Remap is one injective renaming for the whole document: field by field, over all
      collections, two fields of the result are equal exactly when they were equal before, a
      field is empty exactly when it was, and every other field has an id that was not in use. */
  lemma RemapIsInjective(b: Backup, mint: nat -> string)
    requires MintsFresh(mint, Fields(b))
    ensures var was, now := Fields(b), Fields(Remapped(b, mint));
            && |now| == |was| && now == LookAll(Asked(map[], was, mint), was)
            && (forall i, j | 0 <= i < |was| && 0 <= j < |was| :: now[i] == now[j] <==> was[i] == was[j])
            && (forall i | 0 <= i < |was| :: (now[i] == "" <==> was[i] == "") && (now[i] != "" ==> now[i] !in was))
  {
    var was, m := Fields(b), Asked(map[], Fields(b), mint);
    AskedRenames(was, mint);
    FieldsRenamed(b, m);
    hide Asked, Fields, MintsFresh, Rename, LookAll, Renames;
    forall i, j | 0 <= i < |was| && 0 <= j < |was|
      ensures var now := LookAll(m, was);
        && (now[i] == now[j] <==> was[i] == was[j]) && (now[i] == "" <==> was[i] == "")
        && (now[i] != "" ==> now[i] !in was)
    {
      TwoNames(m, was, was[i], was[j]);
    }
  }

  // ---- column by column

  /** An id or a foreign key of the document. */
  ghost predicate Used(b: Backup, x: string) {
    || (exists r <- b.suppliers :: r.id == x)
    || (exists r <- b.locations :: r.id == x || r.body.parent == x)
    || (exists r <- b.categories :: r.id == x || r.body.parent == x)
    || (exists r <- b.assets :: r.id == x || r.body.category == x || r.body.supplier == x || r.body.location == x)
    || (exists r <- b.assignments :: r.id == x || r.body.asset == x)
    || (exists r <- b.consumables :: r.id == x || r.body.category == x || r.body.supplier == x || r.body.location == x)
    || (exists r <- b.licenses :: r.id == x || r.body.supplier == x)
    || (exists r <- b.policies :: r.id == x)
    || (exists r <- b.links :: r.id == x || r.body.policy == x || r.body.asset == x)
    || (exists r <- b.documents :: r.id == x || r.body.entity == x)
  }

  /** Each row is the one in its place, changed in this way. */
  ghost predicate Each<B(!new)>(rows: seq<Row<B>>, out: seq<Row<B>>, change: Row<B> -> Row<B>) {
    |out| == |rows| && forall i :: 0 <= i < |rows| ==> out[i] == change(rows[i])
  }

  /** Every id and foreign key is replaced by its name, and nothing else changes. */
  ghost predicate Rewritten(b: Backup, n: Backup, m: Memo) {
    && n.version == b.version && n.tenant == b.tenant
    && Each(b.suppliers, n.suppliers, (r: Row<Supplier>) => r.(id := Look(m, r.id)))
    && Each(b.locations, n.locations, (r: Row<Location>) =>
              r.(id := Look(m, r.id), body := r.body.(parent := Look(m, r.body.parent))))
    && Each(b.categories, n.categories, (r: Row<Category>) =>
              r.(id := Look(m, r.id), body := r.body.(parent := Look(m, r.body.parent))))
    && Each(b.assets, n.assets, (r: Row<Asset>) =>
              r.(id := Look(m, r.id), body := r.body.(category := Look(m, r.body.category),
                   supplier := Look(m, r.body.supplier), location := Look(m, r.body.location))))
    && Each(b.assignments, n.assignments, (r: Row<Assignment>) =>
              r.(id := Look(m, r.id), body := r.body.(asset := Look(m, r.body.asset))))
    && Each(b.consumables, n.consumables, (r: Row<Consumable>) =>
              r.(id := Look(m, r.id), body := r.body.(category := Look(m, r.body.category),
                   supplier := Look(m, r.body.supplier), location := Look(m, r.body.location))))
    && Each(b.licenses, n.licenses, (r: Row<License>) =>
              r.(id := Look(m, r.id), body := r.body.(supplier := Look(m, r.body.supplier))))
    && Each(b.policies, n.policies, (r: Row<Policy>) => r.(id := Look(m, r.id)))
    && Each(b.links, n.links, (r: Row<Link>) =>
              r.(id := Look(m, r.id), body := r.body.(policy := Look(m, r.body.policy),
                   asset := Look(m, r.body.asset))))
    && Each(b.documents, n.documents, (r: Row<Document>) =>
              r.(id := Look(m, r.id), body := r.body.(entity := Look(m, r.body.entity))))
  }

  lemma TreesRewritten(b: Backup, m: Memo)
    ensures Each(b.suppliers, RenameRows(SUPPLIER, m, b.suppliers), (r: Row<Supplier>) => r.(id := Look(m, r.id)))
    ensures Each(b.policies, RenameRows(POLICY, m, b.policies), (r: Row<Policy>) => r.(id := Look(m, r.id)))
    ensures Each(b.locations, RenameRows(LOCATION, m, b.locations), (r: Row<Location>) =>
                   r.(id := Look(m, r.id), body := r.body.(parent := Look(m, r.body.parent))))
    ensures Each(b.categories, RenameRows(CATEGORY, m, b.categories), (r: Row<Category>) =>
                   r.(id := Look(m, r.id), body := r.body.(parent := Look(m, r.body.parent))))
  {
    hide RenameRows, LookAll;
  }

  lemma RecordsRewritten(b: Backup, m: Memo)
    ensures Each(b.assets, RenameRows(ASSET, m, b.assets), (r: Row<Asset>) =>
                   r.(id := Look(m, r.id), body := r.body.(category := Look(m, r.body.category),
                        supplier := Look(m, r.body.supplier), location := Look(m, r.body.location))))
    ensures Each(b.consumables, RenameRows(CONSUMABLE, m, b.consumables), (r: Row<Consumable>) =>
                   r.(id := Look(m, r.id), body := r.body.(category := Look(m, r.body.category),
                        supplier := Look(m, r.body.supplier), location := Look(m, r.body.location))))
    ensures Each(b.licenses, RenameRows(LICENSE, m, b.licenses), (r: Row<License>) =>
                   r.(id := Look(m, r.id), body := r.body.(supplier := Look(m, r.body.supplier))))
  {
    hide RenameRows, LookAll;
  }

  lemma AttachmentsRewritten(b: Backup, m: Memo)
    ensures Each(b.assignments, RenameRows(ASSIGNMENT, m, b.assignments), (r: Row<Assignment>) =>
                   r.(id := Look(m, r.id), body := r.body.(asset := Look(m, r.body.asset))))
    ensures Each(b.links, RenameRows(LINK, m, b.links), (r: Row<Link>) =>
                   r.(id := Look(m, r.id), body := r.body.(policy := Look(m, r.body.policy),
                        asset := Look(m, r.body.asset))))
    ensures Each(b.documents, RenameRows(DOCUMENT, m, b.documents), (r: Row<Document>) =>
                   r.(id := Look(m, r.id), body := r.body.(entity := Look(m, r.body.entity))))
  {
    hide RenameRows, LookAll;
  }

  lemma Mentioned<B(!new)>(f: Refs<B>, rows: seq<Row<B>>, r: Row<B>, x: string)
    requires r in rows && x in f.get(r)
    ensures x in Mentions(f, rows)
  {
    var i :| 0 <= i < |rows| && rows[i] == r;
    MentionsEach(f, rows, i);
  }

  lemma UsedByTree(b: Backup, x: string)
    ensures (exists r <- b.suppliers :: r.id == x) ==> x in Mentions(SUPPLIER, b.suppliers)
    ensures (exists r <- b.policies :: r.id == x) ==> x in Mentions(POLICY, b.policies)
    ensures (exists r <- b.locations :: r.id == x || r.body.parent == x) ==>
      x in Mentions(LOCATION_ID, b.locations) || x in Mentions(LOCATION_PARENT, b.locations)
    ensures (exists r <- b.categories :: r.id == x || r.body.parent == x) ==>
      x in Mentions(CATEGORY_ID, b.categories) || x in Mentions(CATEGORY_PARENT, b.categories)
  {
    hide Mentions;
    if r :| r in b.suppliers && r.id == x { Mentioned(SUPPLIER, b.suppliers, r, x); }
    if r :| r in b.policies && r.id == x { Mentioned(POLICY, b.policies, r, x); }
    if r :| r in b.locations && r.id == x { Mentioned(LOCATION_ID, b.locations, r, x); }
    if r :| r in b.locations && r.body.parent == x { Mentioned(LOCATION_PARENT, b.locations, r, x); }
    if r :| r in b.categories && r.id == x { Mentioned(CATEGORY_ID, b.categories, r, x); }
    if r :| r in b.categories && r.body.parent == x { Mentioned(CATEGORY_PARENT, b.categories, r, x); }
  }

  lemma UsedByRecord(b: Backup, x: string)
    ensures (exists r <- b.assets :: r.id == x || r.body.category == x || r.body.supplier == x || r.body.location == x)
      ==> x in Mentions(ASSET, b.assets)
    ensures (exists r <- b.consumables ::
               r.id == x || r.body.category == x || r.body.supplier == x || r.body.location == x)
      ==> x in Mentions(CONSUMABLE, b.consumables)
    ensures (exists r <- b.licenses :: r.id == x || r.body.supplier == x) ==> x in Mentions(LICENSE, b.licenses)
  {
    hide Mentions;
    if r :| r in b.assets && (r.id == x || r.body.category == x || r.body.supplier == x || r.body.location == x) {
      Mentioned(ASSET, b.assets, r, x);
    }
    if r :| r in b.consumables && (r.id == x || r.body.category == x || r.body.supplier == x || r.body.location == x) {
      Mentioned(CONSUMABLE, b.consumables, r, x);
    }
    if r :| r in b.licenses && (r.id == x || r.body.supplier == x) { Mentioned(LICENSE, b.licenses, r, x); }
  }

  lemma UsedByAttachment(b: Backup, x: string)
    ensures (exists r <- b.assignments :: r.id == x || r.body.asset == x) ==> x in Mentions(ASSIGNMENT, b.assignments)
    ensures (exists r <- b.links :: r.id == x || r.body.policy == x || r.body.asset == x)
      ==> x in Mentions(LINK, b.links)
    ensures (exists r <- b.documents :: r.id == x || r.body.entity == x) ==> x in Mentions(DOCUMENT, b.documents)
  {
    hide Mentions;
    if r :| r in b.assignments && (r.id == x || r.body.asset == x) { Mentioned(ASSIGNMENT, b.assignments, r, x); }
    if r :| r in b.links && (r.id == x || r.body.policy == x || r.body.asset == x) { Mentioned(LINK, b.links, r, x); }
    if r :| r in b.documents && (r.id == x || r.body.entity == x) { Mentioned(DOCUMENT, b.documents, r, x); }
  }

  lemma UsedIsField(b: Backup, x: string)
    requires Used(b, x)
    ensures x in Fields(b)
  {
    hide Mentions;
    UsedByTree(b, x);
    UsedByRecord(b, x);
    UsedByAttachment(b, x);
  }

  /** Remap, column by column: there are names, different for different ids, none of them in use
      before, for every id and foreign key of the document; each of these is replaced by its name,
      so that what referred to a row still does; and nothing else changes. */
  lemma RemapRewrites(b: Backup, mint: nat -> string) returns (m: Memo)
    requires MintsFresh(mint, Fields(b))
    ensures Rewritten(b, Remapped(b, mint), m) && "" !in m
    ensures forall x | Used(b, x) :: x == "" || x in m
    ensures forall x <- m :: m[x] != "" && !Used(b, m[x])
    ensures forall x <- m, y <- m :: m[x] == m[y] ==> x == y
  {
    m := Asked(map[], Fields(b), mint);
    AskedRenames(Fields(b), mint);
    TreesRewritten(b, m);
    RecordsRewritten(b, m);
    AttachmentsRewritten(b, m);
    hide Asked, Fields, MintsFresh, RenameRows, Each, Used;
    forall x | Used(b, x) ensures x in Fields(b) { UsedIsField(b, x); }
  }

  /** The memo read backwards. */
  ghost function Inverse(m: Memo): (w: Memo)
    requires forall x <- m, y <- m :: m[x] == m[y] ==> x == y
    ensures forall x <- m :: m[x] in w && w[m[x]] == x
    ensures forall y <- w :: exists x <- m :: m[x] == y
  {
    map y | y in m.Values :: var x :| x in m && m[x] == y; x
  }

  lemma LookBack(m: Memo, w: Memo, xs: seq<string>)
    requires "" !in w && forall x <- m :: m[x] in w && w[m[x]] == x
    requires forall x <- xs :: x != "" ==> x in m
    ensures LookAll(w, LookAll(m, xs)) == xs
  {
    forall i | 0 <= i < |xs| ensures Look(w, Look(m, xs[i])) == xs[i] {
      assert xs[i] in xs;
    }
  }

  lemma {:induction false} MentionsEach<B>(f: Refs<B>, rows: seq<Row<B>>, i: nat)
    requires i < |rows|
    ensures forall x <- f.get(rows[i]) :: x in Mentions(f, rows)
  {
    var n := |rows| - 1;
    if i < n {
      MentionsEach(f, rows[..n], i);
    }
  }

  lemma RenameBackRows<B(!new)>(f: Refs<B>, m: Memo, w: Memo, rows: seq<Row<B>>)
    requires Lawful(f) && "" !in w && forall x <- m :: m[x] in w && w[m[x]] == x
    requires forall x <- Mentions(f, rows) :: x != "" ==> x in m
    ensures RenameRows(f, w, RenameRows(f, m, rows)) == rows
  {
    hide Mentions, RenameRows, LookAll;
    var once := RenameRows(f, m, rows);
    var twice := RenameRows(f, w, once);
    forall i | 0 <= i < |rows| ensures twice[i] == rows[i] {
      var r := rows[i];
      MentionsEach(f, rows, i);
      LookBack(m, w, f.get(r));
      assert once[i] == f.put(r, LookAll(m, f.get(r)));
      assert f.get(once[i]) == LookAll(m, f.get(r));
      assert twice[i] == f.put(once[i], f.get(r));
    }
  }

  lemma {:induction false} BothMention<B>(a: Refs<B>, c: Refs<B>, f: Refs<B>, rows: seq<Row<B>>, x: string)
    requires forall r <- rows :: f.get(r) == a.get(r) + c.get(r)
    requires x in Mentions(f, rows)
    ensures x in Mentions(a, rows) || x in Mentions(c, rows)
  {
    var n := |rows| - 1;
    if x in Mentions(f, rows[..n]) {
      BothMention(a, c, f, rows[..n], x);
    } else {
      assert rows[n] in rows;
    }
  }

  lemma TreeFields(b: Backup, x: string)
    ensures x in Mentions(LOCATION, b.locations) ==> x in Fields(b)
    ensures x in Mentions(CATEGORY, b.categories) ==> x in Fields(b)
  {
    if x in Mentions(LOCATION, b.locations) {
      BothMention(LOCATION_ID, LOCATION_PARENT, LOCATION, b.locations, x);
    }
    if x in Mentions(CATEGORY, b.categories) {
      BothMention(CATEGORY_ID, CATEGORY_PARENT, CATEGORY, b.categories, x);
    }
    hide Mentions;
  }

  /** ... and it loses nothing: renaming back gives the original document. */
  lemma RemapIsReversible(b: Backup, mint: nat -> string)
    requires MintsFresh(mint, Fields(b))
    ensures var m := Asked(map[], Fields(b), mint);
            && (forall x <- m, y <- m :: m[x] == m[y] ==> x == y)
            && Rename(Remapped(b, mint), Inverse(m)) == b
  {
    AskedRenames(Fields(b), mint);
    hide Asked, Fields, MintsFresh, Mentions;
    var m := Asked(map[], Fields(b), mint);
    var w := Inverse(m);
    forall y <- w ensures y != "" {
      var x :| x in m && m[x] == y;
    }
    forall x <- Mentions(LOCATION, b.locations) + Mentions(CATEGORY, b.categories) | x != "" ensures x in m {
      TreeFields(b, x);
    }
    hide Rename;
    RenameBackAll(b, m, w);
  }

  lemma RenameBackAll(b: Backup, m: Memo, w: Memo)
    requires "" !in w && forall x <- m :: m[x] in w && w[m[x]] == x
    requires forall x <- Fields(b) :: x != "" ==> x in m
    requires forall x <- Mentions(LOCATION, b.locations) + Mentions(CATEGORY, b.categories) :: x != "" ==> x in m
    ensures Rename(Rename(b, m), w) == b
  {
    AllLawful();
    FieldsHold(b);
    hide Mentions, RenameRows, Lawful, Fields;
    var loc, cat := Mentions(LOCATION, b.locations), Mentions(CATEGORY, b.categories);
    assert forall x <- loc :: x in loc + cat;
    assert forall x <- cat :: x in loc + cat;
    RenameBackRows(SUPPLIER, m, w, b.suppliers);
    RenameBackRows(LOCATION, m, w, b.locations);
    RenameBackRows(CATEGORY, m, w, b.categories);
    RenameBackRows(ASSET, m, w, b.assets);
    RenameBackRows(ASSIGNMENT, m, w, b.assignments);
    RenameBackRows(CONSUMABLE, m, w, b.consumables);
    RenameBackRows(LICENSE, m, w, b.licenses);
    RenameBackRows(POLICY, m, w, b.policies);
    RenameBackRows(LINK, m, w, b.links);
    RenameBackRows(DOCUMENT, m, w, b.documents);
  }

  lemma FieldsHold(b: Backup)
    ensures forall x :: x in Mentions(SUPPLIER, b.suppliers) ==> x in Fields(b)
    ensures forall x :: x in Mentions(ASSET, b.assets) ==> x in Fields(b)
    ensures forall x :: x in Mentions(ASSIGNMENT, b.assignments) ==> x in Fields(b)
    ensures forall x :: x in Mentions(CONSUMABLE, b.consumables) ==> x in Fields(b)
    ensures forall x :: x in Mentions(LICENSE, b.licenses) ==> x in Fields(b)
    ensures forall x :: x in Mentions(POLICY, b.policies) ==> x in Fields(b)
    ensures forall x :: x in Mentions(LINK, b.links) ==> x in Fields(b)
    ensures forall x :: x in Mentions(DOCUMENT, b.documents) ==> x in Fields(b)
  {
    hide Mentions;
  }

  // ---- the rewriting loops

  /** Asks the memo for one id after the other. */
  method AskAll(xs: seq<string>, m0: Memo, mint: nat -> string) returns (ys: seq<string>, m: Memo)
    requires "" !in m0
    ensures m == Asked(m0, xs, mint) && ys == LookAll(m, xs)
  {
    ys, m := [], m0;
    for i := 0 to |xs|
      invariant m == Asked(m0, xs[..i], mint) && ys == LookAll(m, xs[..i])
    {
      Seqs.TakeMore(xs, i);
      AskedKeeps(m0, xs[..i], mint);
      ghost var before := m;
      if xs[i] != "" && xs[i] !in m {
        m := m[xs[i] := mint(|m|)];
      }
      LookAllStays(before, m, xs[..i]);
      ys := ys + [Look(m, xs[i])];
    }
    Seqs.TakeAll(xs);
  }

  lemma LookAllStays(m: Memo, m': Memo, xs: seq<string>)
    requires Extends(m, m') && "" !in m' && forall x <- xs :: x != "" ==> x in m
    ensures LookAll(m', xs) == LookAll(m, xs)
  {
    forall i | 0 <= i < |xs| ensures Look(m', xs[i]) == Look(m, xs[i]) {
      assert xs[i] in xs;
    }
  }

  lemma RenameRowsStays<B>(f: Refs<B>, m: Memo, m': Memo, rows: seq<Row<B>>)
    requires Extends(m, m') && "" !in m' && forall x <- Mentions(f, rows) :: x != "" ==> x in m
    ensures RenameRows(f, m', rows) == RenameRows(f, m, rows)
  {
    hide Mentions, LookAll, RenameRows;
    forall i | 0 <= i < |rows| ensures RenameRow(f, m', rows[i]) == RenameRow(f, m, rows[i]) {
      MentionsEach(f, rows, i);
      LookAllStays(m, m', f.get(rows[i]));
    }
  }

  method RemapRows<B>(f: Refs<B>, rows: seq<Row<B>>, m0: Memo, mint: nat -> string) returns (out: seq<Row<B>>, m: Memo)
    requires "" !in m0
    ensures m == Asked(m0, Mentions(f, rows), mint) && "" !in m && Extends(m0, m)
    ensures out == RenameRows(f, m, rows) && forall x <- Mentions(f, rows) :: x != "" ==> x in m
  {
    out, m := [], m0;
    for i := 0 to |rows|
      invariant m == Asked(m0, Mentions(f, rows[..i]), mint) && "" !in m && out == RenameRows(f, m, rows[..i])
    {
      Seqs.TakeMore(rows, i);
      ghost var before := m;
      var ids;
      ids, m := AskAll(f.get(rows[i]), m, mint);
      AskedInTurn(m0, Mentions(f, rows[..i]), f.get(rows[i]), mint);
      AskedKeeps(m0, Mentions(f, rows[..i]), mint);
      AskedKeeps(before, f.get(rows[i]), mint);
      RenameRowsStays(f, before, m, rows[..i]);
      out := out + [f.put(rows[i], ids)];
    }
    Seqs.TakeAll(rows);
    AskedKeeps(m0, Mentions(f, rows), mint);
  }

  lemma ExtendsFurther(a: Memo, b: Memo, c: Memo)
    requires Extends(a, b) && Extends(b, c)
    ensures Extends(a, c)
  {}

  lemma {:induction false} ParentsUntouched(m: Memo, locations: seq<Row<Location>>, categories: seq<Row<Category>>)
    ensures Mentions(LOCATION_PARENT, RenameRows(LOCATION_ID, m, locations)) == Mentions(LOCATION_PARENT, locations)
    ensures Mentions(CATEGORY_PARENT, RenameRows(CATEGORY_ID, m, categories)) == Mentions(CATEGORY_PARENT, categories)
    decreases |locations| + |categories|
  {
    if locations != [] {
      ParentsUntouched(m, locations[..|locations| - 1], categories);
      assert RenameRows(LOCATION_ID, m, locations)[..|locations| - 1] ==
        RenameRows(LOCATION_ID, m, locations[..|locations| - 1]);
    } else if categories != [] {
      ParentsUntouched(m, locations, categories[..|categories| - 1]);
      assert RenameRows(CATEGORY_ID, m, categories)[..|categories| - 1] ==
        RenameRows(CATEGORY_ID, m, categories[..|categories| - 1]);
    }
  }

  lemma LookTwo(m: Memo, x: string, y: string)
    ensures LookAll(m, [x]) == [Look(m, x)] && LookAll(m, [x, y]) == [Look(m, x), Look(m, y)]
  {}

  /** Ids first and parents afterwards is the same as both at once. */
  lemma LocationsInTwo(m: Memo, rows: seq<Row<Location>>)
    ensures RenameRows(LOCATION_PARENT, m, RenameRows(LOCATION_ID, m, rows)) == RenameRows(LOCATION, m, rows)
  {
    hide RenameRows, LookAll;
    forall i | 0 <= i < |rows|
      ensures RenameRow(LOCATION_PARENT, m, RenameRow(LOCATION_ID, m, rows[i])) == RenameRow(LOCATION, m, rows[i])
    {
      LookTwo(m, rows[i].id, rows[i].body.parent);
      LookTwo(m, rows[i].body.parent, "");
    }
  }

  lemma CategoriesInTwo(m: Memo, rows: seq<Row<Category>>)
    ensures RenameRows(CATEGORY_PARENT, m, RenameRows(CATEGORY_ID, m, rows)) == RenameRows(CATEGORY, m, rows)
  {
    hide RenameRows, LookAll;
    forall i | 0 <= i < |rows|
      ensures RenameRow(CATEGORY_PARENT, m, RenameRow(CATEGORY_ID, m, rows[i])) == RenameRow(CATEGORY, m, rows[i])
    {
      LookTwo(m, rows[i].id, rows[i].body.parent);
      LookTwo(m, rows[i].body.parent, "");
    }
  }

  /** The two trees: all ids, then all parents, of each. */
  method RemapTrees(locations: seq<Row<Location>>, categories: seq<Row<Category>>, m0: Memo, mint: nat -> string)
    returns (ls: seq<Row<Location>>, cs: seq<Row<Category>>, m: Memo)
    requires "" !in m0
    ensures "" !in m && Extends(m0, m)
    ensures m == Asked(m0, Mentions(LOCATION_ID, locations) + Mentions(LOCATION_PARENT, locations)
                           + Mentions(CATEGORY_ID, categories) + Mentions(CATEGORY_PARENT, categories), mint)
    ensures forall m' :: Extends(m, m') && "" !in m' ==>
              ls == RenameRows(LOCATION, m', locations) && cs == RenameRows(CATEGORY, m', categories)
  {
    hide Mentions, RenameRows, Asked, Extends;
    var m1, m2, m3;
    ls, m1 := RemapRows(LOCATION_ID, locations, m0, mint);
    ParentsUntouched(m1, locations, []);
    ghost var half := ls;
    ls, m2 := RemapRows(LOCATION_PARENT, ls, m1, mint);
    cs, m3 := RemapRows(CATEGORY_ID, categories, m2, mint);
    ParentsUntouched(m3, [], categories);
    ghost var half' := cs;
    cs, m := RemapRows(CATEGORY_PARENT, cs, m3, mint);
    AskedInTurn(m0, Mentions(LOCATION_ID, locations), Mentions(LOCATION_PARENT, locations), mint);
    AskedInTurn(m0, Mentions(LOCATION_ID, locations) + Mentions(LOCATION_PARENT, locations),
                Mentions(CATEGORY_ID, categories), mint);
    AskedInTurn(m0,
                Mentions(LOCATION_ID, locations) + Mentions(LOCATION_PARENT, locations)
                + Mentions(CATEGORY_ID, categories),
                Mentions(CATEGORY_PARENT, categories), mint);
    ExtendsFurther(m0, m1, m2);
    ExtendsFurther(m0, m2, m3);
    ExtendsFurther(m0, m3, m);
    forall m' | Extends(m, m') && "" !in m'
      ensures ls == RenameRows(LOCATION, m', locations) && cs == RenameRows(CATEGORY, m', categories)
    {
      ExtendsFurther(m3, m, m');
      ExtendsFurther(m2, m3, m');
      ExtendsFurther(m1, m2, m');
      RenameRowsStays(LOCATION_ID, m1, m', locations);
      RenameRowsStays(LOCATION_PARENT, m2, m', half);
      LocationsInTwo(m', locations);
      RenameRowsStays(CATEGORY_ID, m3, m', categories);
      RenameRowsStays(CATEGORY_PARENT, m, m', half');
      CategoriesInTwo(m', categories);
    }
  }

  /** Rewrites every id and foreign key of a backup with fresh ids. */
  method RemapBackup(b: Backup, mint: nat -> string) returns (out: Backup)
    ensures out == Remapped(b, mint)
  {
    hide Mentions, RenameRows, Asked, Extends;
    var suppliers, m1 := RemapRows(SUPPLIER, b.suppliers, map[], mint);
    var locations, categories, m2 := RemapTrees(b.locations, b.categories, m1, mint);
    var assets, m3 := RemapRows(ASSET, b.assets, m2, mint);
    var assignments, m4 := RemapRows(ASSIGNMENT, b.assignments, m3, mint);
    var consumables, m5 := RemapRows(CONSUMABLE, b.consumables, m4, mint);
    var licenses, m6 := RemapRows(LICENSE, b.licenses, m5, mint);
    var policies, m7 := RemapRows(POLICY, b.policies, m6, mint);
    var links, m8 := RemapRows(LINK, b.links, m7, mint);
    var documents, m := RemapRows(DOCUMENT, b.documents, m8, mint);
    out := Backup(b.version, b.tenant, suppliers, locations, categories, assets, assignments, consumables,
                  licenses, policies, links, documents);
    assert Extends(m, m) by { ExtendsItself(m); }
    ExtendsFurther(m7, m8, m);
    ExtendsFurther(m6, m7, m);
    ExtendsFurther(m5, m6, m);
    ExtendsFurther(m4, m5, m);
    ExtendsFurther(m3, m4, m);
    ExtendsFurther(m2, m3, m);
    ExtendsFurther(m1, m2, m);
    RenameRowsStays(SUPPLIER, m1, m, b.suppliers);
    RenameRowsStays(ASSET, m3, m, b.assets);
    RenameRowsStays(ASSIGNMENT, m4, m, b.assignments);
    RenameRowsStays(CONSUMABLE, m5, m, b.consumables);
    RenameRowsStays(LICENSE, m6, m, b.licenses);
    RenameRowsStays(POLICY, m7, m, b.policies);
    RenameRowsStays(LINK, m8, m, b.links);
    FieldsInTurn(b, mint);
  }

  lemma ExtendsItself(m: Memo)
    ensures Extends(m, m)
  {}

  function TreeMentions(b: Backup): seq<string> {
    Mentions(LOCATION_ID, b.locations) + Mentions(LOCATION_PARENT, b.locations)
    + Mentions(CATEGORY_ID, b.categories) + Mentions(CATEGORY_PARENT, b.categories)
  }

  lemma FieldsInTurn(b: Backup, mint: nat -> string)
    ensures
      var m := Asked(map[], Mentions(SUPPLIER, b.suppliers), mint);
      var m := Asked(m, TreeMentions(b), mint);
      var m := Asked(m, Mentions(ASSET, b.assets), mint);
      var m := Asked(m, Mentions(ASSIGNMENT, b.assignments), mint);
      var m := Asked(m, Mentions(CONSUMABLE, b.consumables), mint);
      var m := Asked(m, Mentions(LICENSE, b.licenses), mint);
      var m := Asked(m, Mentions(POLICY, b.policies), mint);
      var m := Asked(m, Mentions(LINK, b.links), mint);
      Asked(m, Mentions(DOCUMENT, b.documents), mint) == Asked(map[], Fields(b), mint)
  {
    hide Mentions, Asked;
    var f1 := Mentions(SUPPLIER, b.suppliers);
    var f2 := f1 + TreeMentions(b);
    AskedInTurn(map[], f1, TreeMentions(b), mint);
    var f3 := f2 + Mentions(ASSET, b.assets);
    AskedInTurn(map[], f2, Mentions(ASSET, b.assets), mint);
    var f4 := f3 + Mentions(ASSIGNMENT, b.assignments);
    AskedInTurn(map[], f3, Mentions(ASSIGNMENT, b.assignments), mint);
    var f5 := f4 + Mentions(CONSUMABLE, b.consumables);
    AskedInTurn(map[], f4, Mentions(CONSUMABLE, b.consumables), mint);
    var f6 := f5 + Mentions(LICENSE, b.licenses);
    AskedInTurn(map[], f5, Mentions(LICENSE, b.licenses), mint);
    var f7 := f6 + Mentions(POLICY, b.policies);
    AskedInTurn(map[], f6, Mentions(POLICY, b.policies), mint);
    var f8 := f7 + Mentions(LINK, b.links);
    AskedInTurn(map[], f7, Mentions(LINK, b.links), mint);
    var f9 := f8 + Mentions(DOCUMENT, b.documents);
    AskedInTurn(map[], f8, Mentions(DOCUMENT, b.documents), mint);
    assert f9 == Fields(b);
  }
}
