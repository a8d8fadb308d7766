/** Loading one collection of a backup into a table: rows that exist are skipped
    or overwritten, the others are created, and the first error stops the load. */
module Loading {
  import opened Store
  import Seqs

  /** What the outside world supplies to a load, row by row: ids for rows without
      one, clock readings, and store failures. */
  datatype Env = Env(mint: nat -> string, now: nat -> Time, fails: nat -> bool)

  ghost predicate Quiet(env: Env) { forall i: nat :: !env.fails(i) }

  /** Where a load got to: the table, the ids it created, the counters, and why it stopped. */
  datatype Load<+B> = Load(table: Table<B>, made: set<string>, imported: nat, skipped: nat, err: Err)

  function Start<B>(t: Table<B>): Load<B> { Load(t, {}, 0, 0, OK) }

  function LoadRow<B>(k: Kind<B>, acc: Load<B>, r: Row<B>, overwrite: bool, env: Env, i: nat): Load<B> {
    if env.fails(i) then acc.(err := Failed)
    else if Has(acc.table, r.tenant, r.id) then
      if !overwrite then acc.(skipped := acc.skipped + 1)
      else
        var u := Update(k, acc.table, r, env.now(i));
        if u.err != OK then acc.(err := u.err) else acc.(table := u.value, imported := acc.imported + 1)
    else
      var c := Create(k, acc.table, r, env.mint(i), env.now(i));
      if c.err != OK then acc.(err := c.err)
      else acc.(table := c.value, made := acc.made + {r.id}, imported := acc.imported + 1)
  }

  /** Rows are prepared (tenant set, contacts scrubbed, status defaulted) as they are loaded. */
  function Prepared<B>(prep: B -> B, target: string, r: Row<B>): Row<B> {
    r.(tenant := target, body := prep(r.body))
  }

  function LoadRows<B>(k: Kind<B>, prep: B -> B, t: Table<B>, rows: seq<Row<B>>, target: string, overwrite: bool,
                       env: Env): Load<B> {
    if rows == [] then Start(t)
    else
      var n := |rows| - 1;
      var acc := LoadRows(k, prep, t, rows[..n], target, overwrite, env);
      if acc.err != OK then acc else LoadRow(k, acc, Prepared(prep, target, rows[n]), overwrite, env, n)
  }

  lemma {:induction false} LoadStops<B>(k: Kind<B>, prep: B -> B, t: Table<B>, rows: seq<Row<B>>, target: string,
                                        overwrite: bool, env: Env, i: nat)
    requires i <= |rows| && LoadRows(k, prep, t, rows[..i], target, overwrite, env).err != OK
    ensures LoadRows(k, prep, t, rows, target, overwrite, env) ==
      LoadRows(k, prep, t, rows[..i], target, overwrite, env)
  {
    hide LoadRow;
    if i == |rows| {
      Seqs.TakeAll(rows);
    } else {
      assert rows[..|rows| - 1][..i] == rows[..i];
      LoadStops(k, prep, t, rows[..|rows| - 1], target, overwrite, env, i);
    }
  }

  method LoadTable<B>(k: Kind<B>, prep: B -> B, t: Table<B>, rows: seq<Row<B>>, target: string, overwrite: bool,
                      env: Env)
    returns (acc: Load<B>)
    ensures acc == LoadRows(k, prep, t, rows, target, overwrite, env)
  {
    hide LoadRow;
    acc := Start(t);
    for i := 0 to |rows|
      invariant acc == LoadRows(k, prep, t, rows[..i], target, overwrite, env) && acc.err == OK
    {
      Seqs.TakeMore(rows, i);
      acc := LoadRow(k, acc, Prepared(prep, target, rows[i]), overwrite, env, i);
      if acc.err != OK {
        LoadStops(k, prep, t, rows, target, overwrite, env, i + 1);
        return;
      }
    }
    Seqs.TakeAll(rows);
  }

  // ---- what a load keeps

  /** Every row of the first table is in the second, unchanged. */
  ghost predicate Grows<B>(a: Table<B>, b: Table<B>) { forall x <- a :: x in b && b[x] == a[x] }

  lemma RowSkips<B>(k: Kind<B>, acc: Load<B>, r: Row<B>, env: Env, i: nat)
    ensures Grows(acc.table, LoadRow(k, acc, r, false, env, i).table)
  {}

  /** Without overwrite a load changes no row that was there, even when it fails half way. */
  lemma {:induction false} LoadGrows<B>(k: Kind<B>, prep: B -> B, t: Table<B>, rows: seq<Row<B>>, target: string,
                                        env: Env)
    ensures Grows(t, LoadRows(k, prep, t, rows, target, false, env).table)
  {
    hide LoadRow;
    if rows != [] {
      var n := |rows| - 1;
      LoadGrows(k, prep, t, rows[..n], target, env);
      RowSkips(k, LoadRows(k, prep, t, rows[..n], target, false, env), Prepared(prep, target, rows[n]), env, n);
    }
  }

  lemma RowCounts<B(!new)>(k: Kind<B>, acc: Load<B>, r: Row<B>, overwrite: bool, env: Env, i: nat)
    ensures var l := LoadRow(k, acc, r, overwrite, env, i);
      && (overwrite ==> l.skipped == acc.skipped)
      && (!overwrite ==> l.imported - acc.imported == |l.table| - |acc.table|)
  {
  }

  /** What is imported: when overwriting all rows, else as many as the table grows by. */
  lemma {:induction false} LoadCountsExactly<B(!new)>(k: Kind<B>, prep: B -> B, t: Table<B>, rows: seq<Row<B>>,
                                                      target: string, overwrite: bool, env: Env)
    ensures var l := LoadRows(k, prep, t, rows, target, overwrite, env);
      (overwrite ==> l.skipped == 0) && (!overwrite ==> l.imported == |l.table| - |t|)
  {
    hide LoadRow;
    if rows != [] {
      var n := |rows| - 1;
      LoadCountsExactly(k, prep, t, rows[..n], target, overwrite, env);
      RowCounts(k, LoadRows(k, prep, t, rows[..n], target, overwrite, env), Prepared(prep, target, rows[n]), overwrite,
                env, n);
    }
  }

  /** Every row is either imported or skipped. */
  lemma {:induction false} LoadCounts<B>(k: Kind<B>, prep: B -> B, t: Table<B>, rows: seq<Row<B>>, target: string,
                                         overwrite: bool, env: Env)
    ensures var l := LoadRows(k, prep, t, rows, target, overwrite, env);
            && l.imported + l.skipped <= |rows|
            && (l.err == OK ==> l.imported + l.skipped == |rows|)
  {
    hide Update, Create;
    if rows != [] {
      LoadCounts(k, prep, t, rows[..|rows| - 1], target, overwrite, env);
    }
  }

  lemma RowLeavesOthers<B>(k: Kind<B>, acc: Load<B>, r: Row<B>, overwrite: bool, env: Env, i: nat)
    ensures Others(LoadRow(k, acc, r, overwrite, env, i).table, r.tenant) == Others(acc.table, r.tenant)
  {}

  /** A load into one tenant leaves the others' rows alone, in either mode. */
  lemma {:induction false} LoadLeavesOthers<B>(k: Kind<B>, prep: B -> B, t: Table<B>, rows: seq<Row<B>>,
                                               target: string, overwrite: bool, env: Env)
    ensures Others(LoadRows(k, prep, t, rows, target, overwrite, env).table, target) == Others(t, target)
  {
    hide LoadRow, Others;
    if rows != [] {
      var n := |rows| - 1;
      LoadLeavesOthers(k, prep, t, rows[..n], target, overwrite, env);
      RowLeavesOthers(k, LoadRows(k, prep, t, rows[..n], target, overwrite, env), Prepared(prep, target, rows[n]),
                      overwrite, env, n);
    }
  }

  // ---- loading twice

  lemma RowArrives<B>(k: Kind<B>, acc: Load<B>, r: Row<B>, overwrite: bool, env: Env, i: nat)
    requires LoadRow(k, acc, r, overwrite, env, i).err == OK && r.id != "" && acc.err == OK
    ensures Has(LoadRow(k, acc, r, overwrite, env, i).table, r.tenant, r.id)
  {}

  lemma RowKeepsHas<B>(k: Kind<B>, acc: Load<B>, r: Row<B>, overwrite: bool, env: Env, i: nat, tenant: string,
                       id: string)
    requires Has(acc.table, tenant, id)
    ensures Has(LoadRow(k, acc, r, overwrite, env, i).table, tenant, id)
  {}

  lemma {:induction false} LoadArrives<B>(k: Kind<B>, prep: B -> B, t: Table<B>, rows: seq<Row<B>>, target: string,
                                          overwrite: bool, env: Env, j: nat)
    requires LoadRows(k, prep, t, rows, target, overwrite, env).err == OK
    requires j < |rows| && rows[j].id != ""
    ensures Has(LoadRows(k, prep, t, rows, target, overwrite, env).table, target, rows[j].id)
  {
    hide LoadRow;
    var n := |rows| - 1;
    var acc := LoadRows(k, prep, t, rows[..n], target, overwrite, env);
    var r := Prepared(prep, target, rows[n]);
    if j < n {
      LoadArrives(k, prep, t, rows[..n], target, overwrite, env, j);
      RowKeepsHas(k, acc, r, overwrite, env, n, target, rows[j].id);
    } else {
      RowArrives(k, acc, r, overwrite, env, n);
    }
  }

  /** A table that already has every row is left exactly as it is. */
  lemma {:induction false} LoadNothing<B>(k: Kind<B>, prep: B -> B, t: Table<B>, rows: seq<Row<B>>, target: string,
                                          env: Env)
    requires Quiet(env) && forall j :: 0 <= j < |rows| ==> Has(t, target, rows[j].id)
    ensures LoadRows(k, prep, t, rows, target, false, env) == Load(t, {}, 0, |rows|, OK)
  {
    hide Create, Update;
    if rows != [] {
      LoadNothing(k, prep, t, rows[..|rows| - 1], target, env);
    }
  }

  /** Loading the same rows again imports nothing and changes nothing, when every row carries an id. */
  lemma LoadAgain<B>(k: Kind<B>, prep: B -> B, t: Table<B>, rows: seq<Row<B>>, target: string, env: Env, env': Env)
    requires LoadRows(k, prep, t, rows, target, false, env).err == OK && Quiet(env')
    requires forall r <- rows :: r.id != ""
    ensures var t' := LoadRows(k, prep, t, rows, target, false, env).table;
            LoadRows(k, prep, t', rows, target, false, env') == Load(t', {}, 0, |rows|, OK)
  {
    hide LoadRows;
    var t' := LoadRows(k, prep, t, rows, target, false, env).table;
    forall j | 0 <= j < |rows| ensures Has(t', target, rows[j].id) {
      LoadArrives(k, prep, t, rows, target, false, env, j);
    }
    LoadNothing(k, prep, t', rows, target, env');
  }

  ghost predicate MintsIds(env: Env) { forall i: nat :: env.mint(i) != "" }

  lemma RowWithoutId<B>(k: Kind<B>, acc: Load<B>, r: Row<B>, overwrite: bool, env: Env, i: nat)
    requires "" !in acc.table && MintsIds(env)
    ensures var l := LoadRow(k, acc, r, overwrite, env, i);
            && "" !in l.table && l.imported >= acc.imported
            && (r.id == "" ==> l.err != OK || l.imported == acc.imported + 1)
  {}

  /** A row without an id is imported again every time (or its minted id collides). */
  lemma {:induction false} LoadWithoutId<B>(k: Kind<B>, prep: B -> B, t: Table<B>, rows: seq<Row<B>>, target: string,
                                            env: Env)
    requires "" !in t && MintsIds(env)
    ensures var l := LoadRows(k, prep, t, rows, target, false, env);
            && "" !in l.table
            && (l.err == OK && (exists r <- rows :: r.id == "") ==> l.imported > 0)
  {
    hide LoadRow;
    if rows != [] {
      var n := |rows| - 1;
      LoadWithoutId(k, prep, t, rows[..n], target, env);
      RowWithoutId(k, LoadRows(k, prep, t, rows[..n], target, false, env), Prepared(prep, target, rows[n]), false, env,
                   n);
      if exists r <- rows :: r.id == "" {
        var r :| r in rows && r.id == "";
        if r != rows[n] {
          assert r in rows[..n];
        }
      }
    }
  }

  // ---- what a load stores

  /** The first and the last row that carry an id. */
  ghost predicate FirstAt<B(!new)>(rows: seq<Row<B>>, x: string, i: nat) {
    i < |rows| && rows[i].id == x && forall j | 0 <= j < i :: rows[j].id != x
  }

  ghost predicate LastAt<B(!new)>(rows: seq<Row<B>>, x: string, i: nat) {
    i < |rows| && rows[i].id == x && forall j | i < j < |rows| :: rows[j].id != x
  }

  /** No row is given this id by the load itself. */
  ghost predicate NotMinted<B(!new)>(rows: seq<Row<B>>, env: Env, x: string) {
    forall i | 0 <= i < |rows| && rows[i].id == "" :: env.mint(i) != x
  }

  /** What is stored under an id that rows f to l of a list carry: in skip mode the row that was
      there, or else the first; when overwriting the last, under the creation time of the row
      that was there or else of the first. */
  ghost predicate Stores<B(!new)>(k: Kind<B>, prep: B -> B, t: Table<B>, n: Table<B>, rows: seq<Row<B>>,
                                  target: string, overwrite: bool, env: Env, f: nat, l: nat)
    requires f < |rows| && l < |rows|
  {
    var x := rows[f].id;
    var created :=
      if Has(t, target, x) then t[x].created else if rows[f].created == 0 then env.now(f) else rows[f].created;
    && Has(n, target, x)
    && n[x] == if !overwrite && Has(t, target, x) then t[x]
               else if overwrite && (Has(t, target, x) || f < l)
               then Row(x, target, created, env.now(l), k.refill(prep(rows[l].body)))
               else Row(x, target, created, env.now(f), k.fill(prep(rows[f].body)))
  }

  /** A row that does not carry the id leaves what is stored under it. */
  lemma RowElsewhere<B(!new)>(k: Kind<B>, acc: Load<B>, r: Row<B>, overwrite: bool, env: Env, i: nat, x: string)
    requires r.id != x && (r.id == "" ==> env.mint(i) != x)
    ensures var t, n := acc.table, LoadRow(k, acc, r, overwrite, env, i).table;
      (x in n <==> x in t) && (x in t ==> n[x] == t[x])
  {
  }

  /** A row in its place: skipped, overwriting or created. */
  lemma RowStores<B(!new)>(k: Kind<B>, acc: Load<B>, r: Row<B>, overwrite: bool, env: Env, i: nat)
    requires acc.err == OK && r.id != "" && LoadRow(k, acc, r, overwrite, env, i).err == OK
    ensures var t, n := acc.table, LoadRow(k, acc, r, overwrite, env, i).table;
      && Has(n, r.tenant, r.id)
      && (if Has(t, r.tenant, r.id) then
            n[r.id] == if overwrite then Row(r.id, r.tenant, t[r.id].created, env.now(i), k.refill(r.body)) else t[r.id]
          else n[r.id] == Row(r.id, r.tenant, if r.created == 0 then env.now(i) else r.created, env.now(i),
                              k.fill(r.body)))
  {
  }

  lemma {:induction false} NotCarried<B(!new)>(k: Kind<B>, prep: B -> B, t: Table<B>, rows: seq<Row<B>>,
                                               target: string, overwrite: bool, env: Env, x: string)
    requires (forall r <- rows :: r.id != x) && NotMinted(rows, env, x)
    ensures var n := LoadRows(k, prep, t, rows, target, overwrite, env).table;
      (x in n <==> x in t) && (x in t ==> n[x] == t[x])
  {
    hide LoadRow;
    if rows != [] {
      var n := |rows| - 1;
      assert rows[n] in rows && forall r <- rows[..n] :: r in rows;
      assert NotMinted(rows[..n], env, x);
      NotCarried(k, prep, t, rows[..n], target, overwrite, env, x);
      RowElsewhere(k, LoadRows(k, prep, t, rows[..n], target, overwrite, env), Prepared(prep, target, rows[n]),
                   overwrite, env, n, x);
    }
  }

  /** One row more that carries another id. */
  lemma StoresStill<B(!new)>(k: Kind<B>, prep: B -> B, t: Table<B>, m: Table<B>, n: Table<B>, rows: seq<Row<B>>,
                             target: string, overwrite: bool, env: Env, f: nat, l: nat)
    requires rows != [] && f < |rows| - 1 && l < |rows| - 1
    requires Stores(k, prep, t, m, rows[..|rows| - 1], target, overwrite, env, f, l)
    requires var x := rows[f].id; x in n && x in m && n[x] == m[x]
    ensures Stores(k, prep, t, n, rows, target, overwrite, env, f, l)
  {
  }

  /** One row more that carries the same id. */
  lemma StoresAgain<B(!new)>(k: Kind<B>, prep: B -> B, acc: Load<B>, t: Table<B>, rows: seq<Row<B>>, target: string,
                             overwrite: bool, env: Env, f: nat, m: nat)
    requires rows != [] && f <= m < |rows| - 1 && rows[|rows| - 1].id == rows[f].id != "" && acc.err == OK
    requires Stores(k, prep, t, acc.table, rows[..|rows| - 1], target, overwrite, env, f, m)
    requires var r := Prepared(prep, target, rows[|rows| - 1]);
      LoadRow(k, acc, r, overwrite, env, |rows| - 1).err == OK
    ensures var n := LoadRow(k, acc, Prepared(prep, target, rows[|rows| - 1]), overwrite, env, |rows| - 1).table;
      Stores(k, prep, t, n, rows, target, overwrite, env, f, |rows| - 1)
  {
    RowStores(k, acc, Prepared(prep, target, rows[|rows| - 1]), overwrite, env, |rows| - 1);
    hide LoadRow;
  }

  /** The first row that carries the id. */
  lemma StoresFirst<B(!new)>(k: Kind<B>, prep: B -> B, acc: Load<B>, t: Table<B>, rows: seq<Row<B>>, target: string,
                             overwrite: bool, env: Env)
    requires rows != [] && rows[|rows| - 1].id != "" && acc.err == OK
    requires var x := rows[|rows| - 1].id; (x in acc.table <==> x in t) && (x in t ==> acc.table[x] == t[x])
    requires var r := Prepared(prep, target, rows[|rows| - 1]);
      LoadRow(k, acc, r, overwrite, env, |rows| - 1).err == OK
    ensures var n := LoadRow(k, acc, Prepared(prep, target, rows[|rows| - 1]), overwrite, env, |rows| - 1).table;
      Stores(k, prep, t, n, rows, target, overwrite, env, |rows| - 1, |rows| - 1)
  {
    RowStores(k, acc, Prepared(prep, target, rows[|rows| - 1]), overwrite, env, |rows| - 1);
    hide LoadRow;
  }

  /** After a load without an error, in either mode: what is stored under an id that rows carry. */
  lemma {:induction false} LoadStores<B(!new)>(k: Kind<B>, prep: B -> B, t: Table<B>, rows: seq<Row<B>>,
                                               target: string, overwrite: bool, env: Env, x: string, f: nat, l: nat)
    requires LoadRows(k, prep, t, rows, target, overwrite, env).err == OK
    requires x != "" && NotMinted(rows, env, x) && FirstAt(rows, x, f) && LastAt(rows, x, l)
    ensures Stores(k, prep, t, LoadRows(k, prep, t, rows, target, overwrite, env).table, rows, target, overwrite, env,
                   f, l)
    decreases |rows|
  {
    var n := |rows| - 1;
    var front, r := rows[..n], Prepared(prep, target, rows[n]);
    var acc := LoadRows(k, prep, t, front, target, overwrite, env);
    var after := LoadRow(k, acc, r, overwrite, env, n);
    assert acc.err == OK && LoadRows(k, prep, t, rows, target, overwrite, env) == after;
    assert NotMinted(front, env, x);
    hide LoadRow, LoadRows, Stores;
    if rows[n].id != x {
      LoadStores(k, prep, t, front, target, overwrite, env, x, f, l);
      RowElsewhere(k, acc, r, overwrite, env, n, x);
      assert x in acc.table by { StoresHas(k, prep, t, acc.table, front, target, overwrite, env, f, l); }
      StoresStill(k, prep, t, acc.table, after.table, rows, target, overwrite, env, f, l);
    } else if f == n {
      NotCarried(k, prep, t, front, target, overwrite, env, x);
      StoresFirst(k, prep, acc, t, rows, target, overwrite, env);
    } else {
      var m := LastBefore(front, x, f);
      LoadStores(k, prep, t, front, target, overwrite, env, x, f, m);
      StoresAgain(k, prep, acc, t, rows, target, overwrite, env, f, m);
    }
  }

  lemma StoresHas<B(!new)>(k: Kind<B>, prep: B -> B, t: Table<B>, n: Table<B>, rows: seq<Row<B>>, target: string,
                           overwrite: bool, env: Env, f: nat, l: nat)
    requires f < |rows| && l < |rows| && Stores(k, prep, t, n, rows, target, overwrite, env, f, l)
    ensures rows[f].id in n
  {
  }

  /** A load: what it stores under each id that rows carry; and nothing else but rows without an id changes. */
  ghost predicate Loads<B(!new)>(k: Kind<B>, prep: B -> B, t: Table<B>, n: Table<B>, rows: seq<Row<B>>, target: string,
                                 overwrite: bool, env: Env) {
    && (forall x, f: nat, l: nat | x != "" && NotMinted(rows, env, x) && FirstAt(rows, x, f) && LastAt(rows, x, l) ::
          Stores(k, prep, t, n, rows, target, overwrite, env, f, l))
    && (forall x | (forall r <- rows :: r.id != x) && NotMinted(rows, env, x) ::
          (x in n <==> x in t) && (x in t ==> n[x] == t[x]))
  }

  lemma LoadLoads<B(!new)>(k: Kind<B>, prep: B -> B, t: Table<B>, rows: seq<Row<B>>, target: string, overwrite: bool,
                           env: Env)
    requires LoadRows(k, prep, t, rows, target, overwrite, env).err == OK
    ensures Loads(k, prep, t, LoadRows(k, prep, t, rows, target, overwrite, env).table, rows, target, overwrite, env)
  {
    var n := LoadRows(k, prep, t, rows, target, overwrite, env).table;
    hide LoadRows, Stores;
    forall x, f: nat, l: nat | x != "" && NotMinted(rows, env, x) && FirstAt(rows, x, f) && LastAt(rows, x, l)
      ensures Stores(k, prep, t, n, rows, target, overwrite, env, f, l)
    {
      LoadStores(k, prep, t, rows, target, overwrite, env, x, f, l);
    }
    forall x | (forall r <- rows :: r.id != x) && NotMinted(rows, env, x)
      ensures (x in n <==> x in t) && (x in t ==> n[x] == t[x])
    {
      NotCarried(k, prep, t, rows, target, overwrite, env, x);
    }
  }

  lemma {:induction false} LastBefore<B(!new)>(rows: seq<Row<B>>, x: string, f: nat) returns (l: nat)
    requires FirstAt(rows, x, f)
    ensures LastAt(rows, x, l) && f <= l
  {
    var n := |rows| - 1;
    if rows[n].id == x {
      l := n;
    } else {
      l := LastBefore(rows[..n], x, f);
    }
  }

  lemma RowMakesNew<B(!new)>(k: Kind<B>, acc: Load<B>, r: Row<B>, overwrite: bool, env: Env, i: nat, x: string)
    ensures var n := LoadRow(k, acc, r, overwrite, env, i);
      && (x in acc.table ==> x in n.table) && (x in acc.made ==> x in n.made)
      && (x in n.made && x !in acc.made && x != "" ==> x !in acc.table && Has(n.table, r.tenant, x))
      && (Has(acc.table, r.tenant, x) ==> Has(n.table, r.tenant, x))
  {
  }

  /** What a load says it made was not there before, and is the target's now. */
  lemma {:induction false} LoadMakesNew<B(!new)>(k: Kind<B>, prep: B -> B, t: Table<B>, rows: seq<Row<B>>,
                                                 target: string, overwrite: bool, env: Env, x: string)
    ensures var n := LoadRows(k, prep, t, rows, target, overwrite, env);
      (x in t ==> x in n.table) && (x in n.made && x != "" ==> x !in t && Has(n.table, target, x))
  {
    hide LoadRow;
    if rows != [] {
      var n := |rows| - 1;
      LoadMakesNew(k, prep, t, rows[..n], target, overwrite, env, x);
      RowMakesNew(k, LoadRows(k, prep, t, rows[..n], target, overwrite, env), Prepared(prep, target, rows[n]),
                  overwrite, env, n, x);
    }
  }

  lemma RowPrepares<B(!new)>(k: Kind<B>, acc: Load<B>, r: Row<B>, overwrite: bool, env: Env, i: nat, x: string,
                             test: B -> bool)
    requires test(k.fill(r.body)) && test(k.refill(r.body))
    ensures var n := LoadRow(k, acc, r, overwrite, env, i).table;
      x in n ==> (x in acc.table && n[x] == acc.table[x]) || test(n[x].body)
  {
  }

  /** What preparing a row, and filling in defaults, make sure of is so of every row that a load wrote. */
  lemma {:induction false} LoadPrepares<B(!new)>(k: Kind<B>, prep: B -> B, t: Table<B>, rows: seq<Row<B>>,
                                                 target: string, overwrite: bool, env: Env, x: string, test: B -> bool)
    requires forall b: B :: test(k.fill(prep(b))) && test(k.refill(prep(b)))
    ensures var n := LoadRows(k, prep, t, rows, target, overwrite, env).table;
      x in n ==> (x in t && n[x] == t[x]) || test(n[x].body)
  {
    hide LoadRow;
    if rows != [] {
      var n := |rows| - 1;
      LoadPrepares(k, prep, t, rows[..n], target, overwrite, env, x, test);
      RowPrepares(k, LoadRows(k, prep, t, rows[..n], target, overwrite, env), Prepared(prep, target, rows[n]),
                  overwrite, env, n, x, test);
    }
  }

  // ---- loading into an empty place

  /** The stored row differs from the loaded one in its update time only. */
  predicate SameButUpdated<B(==)>(a: Row<B>, b: Row<B>) { a.(updated := 0) == b.(updated := 0) }

  /** Rows that a table without them can take: they carry ids and creation times,
      have their defaults filled in, and hold distinct unique columns. */
  ghost predicate Loadable<B>(k: Kind<B>, prep: B -> B, rows: seq<Row<B>>, target: string) {
    && Distinct(rows)
    && (forall i :: 0 <= i < |rows| ==>
          && rows[i].id != "" && rows[i].tenant == target && rows[i].created != 0
          && k.fill(prep(rows[i].body)) == rows[i].body)
    && (forall i, j :: 0 <= i < j < |rows| ==> !k.clash(rows[i].body, prep(rows[j].body)))
  }

  /** The table holds what it held, and the rows. */
  ghost predicate Loaded<B>(t: Table<B>, w: Table<B>, rows: seq<Row<B>>) {
    && t.Keys == w.Keys + IdSet(rows) && Grows(w, t)
    && forall i :: 0 <= i < |rows| ==> rows[i].id in t && SameButUpdated(t[rows[i].id], rows[i])
  }

  lemma RowIsCreated<B>(k: Kind<B>, acc: Load<B>, r: Row<B>, body: B, overwrite: bool, env: Env, i: nat)
    requires acc.err == OK && !env.fails(i) && r.id != "" && r.id !in acc.table && r.created != 0
    requires k.fill(r.body) == body
    requires forall x <- acc.table :: acc.table[x].tenant == r.tenant ==> !k.clash(acc.table[x].body, r.body)
    ensures LoadRow(k, acc, r, overwrite, env, i) ==
            Load(acc.table[r.id := Row(r.id, r.tenant, r.created, env.now(i), body)], acc.made + {r.id},
                 acc.imported + 1, acc.skipped, OK)
  {}

  lemma NoClash<B>(k: Kind<B>, t: Table<B>, w: Table<B>, rows: seq<Row<B>>, target: string, r: Row<B>)
    requires Loaded(t, w, rows) && forall x <- w :: w[x].tenant != target
    requires forall i :: 0 <= i < |rows| ==> !k.clash(rows[i].body, r.body)
    ensures forall x <- t :: t[x].tenant == target ==> !k.clash(t[x].body, r.body)
  {
    forall x <- t | t[x].tenant == target ensures !k.clash(t[x].body, r.body) {
      if x !in w {
        InIdSet(rows, x);
        var i :| 0 <= i < |rows| && rows[i].id == x;
        assert t[x].body == rows[i].body;
      }
    }
  }

  lemma LoadableFront<B>(k: Kind<B>, prep: B -> B, rows: seq<Row<B>>, target: string)
    requires Loadable(k, prep, rows, target) && rows != []
    ensures Loadable(k, prep, rows[..|rows| - 1], target)
    ensures rows[|rows| - 1].id !in IdSet(rows[..|rows| - 1])
  {
    hide IdSet;
  }

  lemma LoadedMore<B>(t: Table<B>, w: Table<B>, rows: seq<Row<B>>, s: Row<B>)
    requires rows != [] && Loaded(t, w, rows[..|rows| - 1]) && rows[|rows| - 1].id !in t
    requires s.id == rows[|rows| - 1].id && SameButUpdated(s, rows[|rows| - 1])
    ensures Loaded(t[s.id := s], w, rows)
  {
    var n := |rows| - 1;
    var t' := t[s.id := s];
    assert IdSet(rows) == IdSet(rows[..n]) + {rows[n].id};
    hide IdSet;
    forall i | 0 <= i < |rows| ensures rows[i].id in t' && SameButUpdated(t'[rows[i].id], rows[i]) {
      if i < n {
        assert rows[..n][i] == rows[i];
      }
    }
  }

  /** Loadable rows go into a table that holds nothing of the tenant: all of them,
      unchanged but for the update time, and nothing else. */
  lemma {:induction false} LoadFresh<B>(k: Kind<B>, prep: B -> B, w: Table<B>, rows: seq<Row<B>>, target: string,
                                        overwrite: bool, env: Env)
    requires Quiet(env) && Loadable(k, prep, rows, target)
    requires forall x <- w :: w[x].tenant != target
    requires forall i :: 0 <= i < |rows| ==> rows[i].id !in w
    ensures var l := LoadRows(k, prep, w, rows, target, overwrite, env);
            && l.err == OK && l.imported == |rows| && l.skipped == 0 && l.made == IdSet(rows)
            && Loaded(l.table, w, rows)
  {
    if rows != [] {
      var n := |rows| - 1;
      LoadableFront(k, prep, rows, target);
      LoadFresh(k, prep, w, rows[..n], target, overwrite, env);
      var acc := LoadRows(k, prep, w, rows[..n], target, overwrite, env);
      var r := Prepared(prep, target, rows[n]);
      FrontDoesNotClash(k, prep, rows, target);
      NoClash(k, acc.table, w, rows[..n], target, r);
      assert r.id !in acc.table;
      RowIsCreated(k, acc, r, rows[n].body, overwrite, env, n);
      LoadedMore(acc.table, w, rows, Row(r.id, r.tenant, r.created, env.now(n), rows[n].body));
    }
  }

  lemma FrontDoesNotClash<B>(k: Kind<B>, prep: B -> B, rows: seq<Row<B>>, target: string)
    requires Loadable(k, prep, rows, target) && rows != []
    ensures var n := |rows| - 1; forall i :: 0 <= i < n ==> !k.clash(rows[..n][i].body, prep(rows[n].body))
  {
    hide Distinct;
  }
}
