/** Loading the attachments of a backup: assignments, policy links and document
    rows. They are only ever inserted; what is refused is skipped or, for
    assignments, stops the load. */
module Attaching {
  import opened Store
  import opened Loading
  import Seqs

  /** How a kind of attachment is inserted: which rows are considered at all, the
      unique guard (over all tenants), the defaults, and whether a refusal is an error. */
  datatype Attach<!B> = Attach(admit: Row<B> -> bool, clash: (B, B) -> bool, fill: B -> B, strict: bool)

  const PAPERLESS_PREFIX := "paperless:"

  function TenantPrefix(tenant: string): string { "tenants/" + tenant + "/" }

  /** History is restored for the assets this import created. */
  function ASSIGNMENTS(made: set<string>): Attach<Assignment> {
    Attach((r: Row<Assignment>) => r.body.asset in made,
           (a: Assignment, b: Assignment) => false,
           (a: Assignment) => a.(action := if a.action == "" then "assigned" else a.action),
           true)
  }

  const LINKS: Attach<Link> := Attach(
    (r: Row<Link>) => true,
    (a: Link, b: Link) => a.policy == b.policy && a.asset == b.asset,
    (a: Link) => a,
    false)

  /** A document row is only restored where its bytes already are: under the
      tenant's own object keys, or in paperless for the same tenant. */
  predicate KeyBelongs(r: Row<Document>, target: string) {
    || (r.body.paperless != "" && r.tenant == target && r.body.key == PAPERLESS_PREFIX + r.body.paperless)
    || TenantPrefix(target) <= r.body.key
  }

  function DOCUMENTS(target: string): Attach<Document> {
    Attach((r: Row<Document>) => KeyBelongs(r, target),
           (a: Document, b: Document) => a.key == b.key,
           (a: Document) => a,
           false)
  }

  function InsertRow<B>(k: Attach<B>, acc: Load<B>, r: Row<B>, target: string, env: Env, i: nat): Load<B> {
    if !k.admit(r) then acc.(skipped := acc.skipped + 1)
    else if env.fails(i) then acc.(err := Failed)
    else
      var id := if r.id == "" then env.mint(i) else r.id;
      if id in acc.table || exists x <- acc.table :: k.clash(acc.table[x].body, r.body) then
        if k.strict then acc.(err := Conflict) else acc.(skipped := acc.skipped + 1)
      else
        var stored := Row(id, target, if r.created == 0 then env.now(i) else r.created, r.updated, k.fill(r.body));
        acc.(table := acc.table[id := stored], made := acc.made + {id}, imported := acc.imported + 1)
  }

  function InsertRows<B>(k: Attach<B>, t: Table<B>, rows: seq<Row<B>>, target: string, env: Env): Load<B> {
    if rows == [] then Start(t)
    else
      var n := |rows| - 1;
      var acc := InsertRows(k, t, rows[..n], target, env);
      if acc.err != OK then acc else InsertRow(k, acc, rows[n], target, env, n)
  }

  lemma {:induction false} InsertStops<B>(k: Attach<B>, t: Table<B>, rows: seq<Row<B>>, target: string, env: Env,
                                          i: nat)
    requires i <= |rows| && InsertRows(k, t, rows[..i], target, env).err != OK
    ensures InsertRows(k, t, rows, target, env) == InsertRows(k, t, rows[..i], target, env)
  {
    hide InsertRow;
    if i == |rows| {
      Seqs.TakeAll(rows);
    } else {
      assert rows[..|rows| - 1][..i] == rows[..i];
      InsertStops(k, t, rows[..|rows| - 1], target, env, i);
    }
  }

  method InsertTable<B>(k: Attach<B>, t: Table<B>, rows: seq<Row<B>>, target: string, env: Env) returns (acc: Load<B>)
    ensures acc == InsertRows(k, t, rows, target, env)
  {
    hide InsertRow;
    acc := Start(t);
    for i := 0 to |rows|
      invariant acc == InsertRows(k, t, rows[..i], target, env) && acc.err == OK
    {
      Seqs.TakeMore(rows, i);
      acc := InsertRow(k, acc, rows[i], target, env, i);
      if acc.err != OK {
        InsertStops(k, t, rows, target, env, i + 1);
        return;
      }
    }
    Seqs.TakeAll(rows);
  }

  // ---- what inserting keeps

  lemma InsertRowGrows<B>(k: Attach<B>, acc: Load<B>, r: Row<B>, target: string, env: Env, i: nat)
    ensures Grows(acc.table, InsertRow(k, acc, r, target, env, i).table)
  {}

  lemma {:induction false} InsertGrows<B>(k: Attach<B>, t: Table<B>, rows: seq<Row<B>>, target: string, env: Env)
    ensures Grows(t, InsertRows(k, t, rows, target, env).table)
  {
    hide InsertRow;
    if rows != [] {
      var n := |rows| - 1;
      InsertGrows(k, t, rows[..n], target, env);
      InsertRowGrows(k, InsertRows(k, t, rows[..n], target, env), rows[n], target, env, n);
    }
  }

  lemma {:induction false} InsertCounts<B>(k: Attach<B>, t: Table<B>, rows: seq<Row<B>>, target: string, env: Env)
    ensures var l := InsertRows(k, t, rows, target, env);
            && l.imported + l.skipped <= |rows| && l.imported == |l.table| - |t|
            && (l.err == OK ==> l.imported + l.skipped == |rows|)
  {
    if rows != [] {
      InsertCounts(k, t, rows[..|rows| - 1], target, env);
    }
  }

  lemma InsertRowLeavesOthers<B>(k: Attach<B>, acc: Load<B>, r: Row<B>, target: string, env: Env, i: nat)
    ensures Others(InsertRow(k, acc, r, target, env, i).table, target) == Others(acc.table, target)
  {}

  lemma {:induction false} InsertLeavesOthers<B>(k: Attach<B>, t: Table<B>, rows: seq<Row<B>>, target: string, env: Env)
    ensures Others(InsertRows(k, t, rows, target, env).table, target) == Others(t, target)
  {
    hide InsertRow, Others;
    if rows != [] {
      var n := |rows| - 1;
      InsertLeavesOthers(k, t, rows[..n], target, env);
      InsertRowLeavesOthers(k, InsertRows(k, t, rows[..n], target, env), rows[n], target, env, n);
    }
  }

  /** Every row that is new was admitted: it is one of the rows, under the target, with its defaults. */
  ghost predicate Admitted<B(!new)>(k: Attach<B>, rows: seq<Row<B>>, target: string, env: Env, s: Row<B>) {
    exists i | 0 <= i < |rows| ::
      && k.admit(rows[i]) && s.tenant == target && s.body == k.fill(rows[i].body) && s.updated == rows[i].updated
      && s.id == (if rows[i].id == "" then env.mint(i) else rows[i].id)
  }

  lemma AdmittedMore<B(!new)>(k: Attach<B>, rows: seq<Row<B>>, target: string, env: Env, s: Row<B>)
    requires rows != [] && Admitted(k, rows[..|rows| - 1], target, env, s)
    ensures Admitted(k, rows, target, env, s)
  {
    var n := |rows| - 1;
    var i :| 0 <= i < n
      && k.admit(rows[..n][i]) && s.tenant == target && s.body == k.fill(rows[..n][i].body)
      && s.updated == rows[..n][i].updated && s.id == (if rows[..n][i].id == "" then env.mint(i) else rows[..n][i].id);
    assert rows[..n][i] == rows[i];
  }

  lemma InsertRowAdmits<B(!new)>(k: Attach<B>, acc: Load<B>, rows: seq<Row<B>>, target: string, env: Env, x: string)
    requires rows != []
    ensures var n := InsertRow(k, acc, rows[|rows| - 1], target, env, |rows| - 1).table;
      x in n && x !in acc.table ==> Admitted(k, rows, target, env, n[x])
  {
  }

  lemma {:induction false} InsertAdmits<B(!new)>(k: Attach<B>, t: Table<B>, rows: seq<Row<B>>, target: string, env: Env,
                                                 x: string)
    requires x in InsertRows(k, t, rows, target, env).table && x !in t
    ensures Admitted(k, rows, target, env, InsertRows(k, t, rows, target, env).table[x])
  {
    hide InsertRow, Admitted;
    if rows != [] {
      var n := |rows| - 1;
      var acc := InsertRows(k, t, rows[..n], target, env);
      if x in acc.table {
        InsertAdmits(k, t, rows[..n], target, env, x);
        AdmittedMore(k, rows, target, env, acc.table[x]);
        InsertRowGrows(k, acc, rows[n], target, env, n);
      } else {
        InsertRowAdmits(k, acc, rows, target, env, x);
      }
    }
  }

  // ---- inserting twice

  /** The row is not considered, or its unique columns are taken. */
  ghost predicate Refused<B>(k: Attach<B>, t: Table<B>, r: Row<B>) {
    || !k.admit(r)
    || (r.id != "" && r.id in t)
    || exists x <- t :: k.clash(t[x].body, r.body)
  }

  lemma RefusedAfter<B>(k: Attach<B>, acc: Load<B>, r: Row<B>, target: string, env: Env, i: nat)
    requires InsertRow(k, acc, r, target, env, i).err == OK && acc.err == OK && !k.strict
    requires k.clash(k.fill(r.body), r.body)
    requires r.id == "" ==> env.mint(i) !in acc.table
    ensures Refused(k, InsertRow(k, acc, r, target, env, i).table, r)
  {
    var t' := InsertRow(k, acc, r, target, env, i).table;
    if k.admit(r) && !Refused(k, acc.table, r) {
      var id := if r.id == "" then env.mint(i) else r.id;
      assert id in t' && k.clash(t'[id].body, r.body);
    }
  }

  lemma RefusedStays<B>(k: Attach<B>, a: Table<B>, b: Table<B>, r: Row<B>)
    requires Grows(a, b) && Refused(k, a, r)
    ensures Refused(k, b, r)
  {
    if k.admit(r) && !(r.id != "" && r.id in a) {
      var x :| x in a && k.clash(a[x].body, r.body);
      assert x in b && k.clash(b[x].body, r.body);
    }
  }

  /** The ids minted during a load were not in the table yet. */
  ghost predicate MintsNew<B>(k: Attach<B>, t: Table<B>, rows: seq<Row<B>>, target: string, env: Env) {
    forall i: nat :: i < |rows| && rows[i].id == "" ==> env.mint(i) !in InsertRows(k, t, rows[..i], target, env).table
  }

  lemma {:induction false} InsertRefuses<B>(k: Attach<B>, t: Table<B>, rows: seq<Row<B>>, target: string, env: Env,
                                            j: nat)
    requires InsertRows(k, t, rows, target, env).err == OK && !k.strict && j < |rows|
    requires k.clash(k.fill(rows[j].body), rows[j].body)
    requires MintsNew(k, t, rows, target, env)
    ensures Refused(k, InsertRows(k, t, rows, target, env).table, rows[j])
  {
    hide InsertRow, Refused;
    var n := |rows| - 1;
    var acc := InsertRows(k, t, rows[..n], target, env);
    if j < n {
      forall i: nat | i < n && rows[..n][i].id == ""
        ensures env.mint(i) !in InsertRows(k, t, rows[..n][..i], target, env).table
      {
        assert rows[..n][..i] == rows[..i];
      }
      InsertRefuses(k, t, rows[..n], target, env, j);
      InsertRowGrows(k, acc, rows[n], target, env, n);
      RefusedStays(k, acc.table, InsertRows(k, t, rows, target, env).table, rows[j]);
    } else {
      RefusedAfter(k, acc, rows[n], target, env, n);
    }
  }

  lemma {:induction false} InsertNothing<B>(k: Attach<B>, t: Table<B>, rows: seq<Row<B>>, target: string, env: Env)
    requires (Quiet(env) && !k.strict) || forall j :: 0 <= j < |rows| ==> !k.admit(rows[j])
    requires forall j :: 0 <= j < |rows| ==> Refused(k, t, rows[j])
    ensures InsertRows(k, t, rows, target, env) == Load(t, {}, 0, |rows|, OK)
  {
    if rows != [] {
      var n := |rows| - 1;
      InsertNothing(k, t, rows[..n], target, env);
      assert Refused(k, t, rows[n]);
    }
  }

  /** Inserting the same rows again inserts nothing: each is now taken by itself or by another. */
  lemma InsertAgain<B>(k: Attach<B>, t: Table<B>, rows: seq<Row<B>>, target: string, env: Env, env': Env)
    requires InsertRows(k, t, rows, target, env).err == OK && Quiet(env') && !k.strict
    requires forall j :: 0 <= j < |rows| ==> k.clash(k.fill(rows[j].body), rows[j].body)
    requires MintsNew(k, t, rows, target, env)
    ensures var t' := InsertRows(k, t, rows, target, env).table;
            InsertRows(k, t', rows, target, env') == Load(t', {}, 0, |rows|, OK)
  {
    hide InsertRows, Refused, MintsNew;
    var t' := InsertRows(k, t, rows, target, env).table;
    forall j | 0 <= j < |rows| ensures Refused(k, t', rows[j]) {
      InsertRefuses(k, t, rows, target, env, j);
    }
    InsertNothing(k, t', rows, target, env');
  }

  // ---- inserting into an empty place

  ghost predicate Insertable<B>(k: Attach<B>, w: Table<B>, rows: seq<Row<B>>, target: string) {
    && Distinct(rows)
    && (forall i :: 0 <= i < |rows| ==>
          && rows[i].id != "" && rows[i].id !in w && rows[i].tenant == target && rows[i].created != 0
          && k.admit(rows[i]) && k.fill(rows[i].body) == rows[i].body)
    && (forall i, x :: 0 <= i < |rows| && x in w ==> !k.clash(w[x].body, rows[i].body))
    && (forall i, j :: 0 <= i < j < |rows| ==> !k.clash(rows[i].body, rows[j].body))
  }

  /** The table holds what it held, and exactly the rows besides. */
  ghost predicate Inserted<B>(t: Table<B>, w: Table<B>, rows: seq<Row<B>>) {
    && t.Keys == w.Keys + IdSet(rows) && Grows(w, t)
    && forall i :: 0 <= i < |rows| ==> rows[i].id in t && t[rows[i].id] == rows[i]
  }

  lemma InsertableFront<B>(k: Attach<B>, w: Table<B>, rows: seq<Row<B>>, target: string)
    requires Insertable(k, w, rows, target) && rows != []
    ensures Insertable(k, w, rows[..|rows| - 1], target)
    ensures rows[|rows| - 1].id !in IdSet(rows[..|rows| - 1])
  {
    hide IdSet;
  }

  lemma InsertedMore<B>(t: Table<B>, w: Table<B>, rows: seq<Row<B>>)
    requires rows != [] && Inserted(t, w, rows[..|rows| - 1]) && rows[|rows| - 1].id !in t
    ensures Inserted(t[rows[|rows| - 1].id := rows[|rows| - 1]], w, rows)
  {
    var n := |rows| - 1;
    var t' := t[rows[n].id := rows[n]];
    assert IdSet(rows) == IdSet(rows[..n]) + {rows[n].id};
    hide IdSet;
    forall i | 0 <= i < |rows| ensures rows[i].id in t' && t'[rows[i].id] == rows[i] {
      if i < n {
        assert rows[..n][i] == rows[i];
      }
    }
  }

  lemma NoneClashes<B>(k: Attach<B>, t: Table<B>, w: Table<B>, rows: seq<Row<B>>, target: string)
    requires rows != [] && Insertable(k, w, rows, target) && Inserted(t, w, rows[..|rows| - 1])
    ensures forall x <- t :: !k.clash(t[x].body, rows[|rows| - 1].body)
  {
    var n := |rows| - 1;
    forall x <- t ensures !k.clash(t[x].body, rows[n].body) {
      if x !in w {
        InIdSet(rows[..n], x);
        var i :| 0 <= i < n && rows[..n][i].id == x;
        assert t[x] == rows[i];
      }
    }
  }

  /** Insertable rows all go in, unchanged. */
  lemma {:induction false} InsertFresh<B>(k: Attach<B>, w: Table<B>, rows: seq<Row<B>>, target: string, env: Env)
    requires Quiet(env) && Insertable(k, w, rows, target)
    ensures var l := InsertRows(k, w, rows, target, env);
            && l.err == OK && l.imported == |rows| && l.skipped == 0
            && Inserted(l.table, w, rows)
  {
    if rows != [] {
      var n := |rows| - 1;
      InsertableFront(k, w, rows, target);
      InsertFresh(k, w, rows[..n], target, env);
      var acc := InsertRows(k, w, rows[..n], target, env);
      NoneClashes(k, acc.table, w, rows, target);
      assert rows[n].id !in acc.table;
      InsertedMore(acc.table, w, rows);
    }
  }
}
