/** The sweeps that alert on expiring and low-stock rows, and the record of what was
    last notified that keeps an alert from repeating. */
module Scheduler {
  import opened Optional
  import opened Store
  import Seqs
  import StreamIds
  import Wipe

  // ---- conditions

  const SOON := "soon"
  const EXPIRED := "expired"
  const LOW := "low"
  const FINE := "ok"

  function StateAt(end: Time, now: Time, window: Time): string {
    if end < now then EXPIRED else if end - now <= window then SOON else FINE
  }

  function StockState(amount: int, min: int): string {
    if amount <= min then LOW + ":" + StreamIds.FormatInt(amount) else FINE
  }

  datatype Kind = Warranted | Licensed | Insured | LowStock

  function Key(kind: Kind, id: string): string {
    match kind
    case Warranted => "warranty:" + id
    case Licensed => "license:" + id
    case Insured => "insurance:" + id
    case LowStock => "low_stock:" + id
  }

  /** Conditions of different rows, or of different kinds, never share a key. */
  lemma KeysApart(a: Kind, b: Kind, x: string, y: string)
    requires Key(a, x) == Key(b, y)
    ensures a == b && x == y
  {
    var s, t := Key(a, x), Key(b, y);
    assert s[0] == t[0] && s[1] == t[1];
    assert Head(a) + x == s && Head(b) + y == t;
    if a == b {
      assert s[|Head(a)|..] == x && t[|Head(b)|..] == y;
    }
  }

  function Head(kind: Kind): string { Key(kind, "") }

  // ---- the record of what was notified

  datatype Alert = Alert(tenant: string, key: string, state: string)

  /** One condition found in one state; read, upsert: its record can be read, and written. */
  datatype Check = Check(tenant: string, key: string, state: string, read: bool, upsert: bool)

  /** What was last notified, and what was published. */
  datatype Board = Board(notify: map<(string, string), string>, sent: seq<Alert>)

  function Recorded(b: Board, tenant: string, key: string): Option<string> {
    if (tenant, key) in b.notify then Some(b.notify[(tenant, key)]) else None
  }

  function AddIf<T>(s: seq<T>, add: bool, x: T): seq<T> { if add then s + [x] else s }

  /** Publishes a state that differs from the one recorded, once it is recorded; "ok" is recorded
      only. A record that cannot be read counts as different. */
  function Evaluate(b: Board, c: Check): Board {
    if c.read && Recorded(b, c.tenant, c.key) == Some(c.state) then b
    else if !c.upsert then b
    else b.(notify := b.notify[(c.tenant, c.key) := c.state],
            sent := AddIf(b.sent, c.state != FINE, Alert(c.tenant, c.key, c.state)))
  }

  function EvaluateAll(b: Board, cs: seq<Check>): Board {
    if cs == [] then b else Evaluate(EvaluateAll(b, cs[..|cs| - 1]), cs[|cs| - 1])
  }

  // ---- what is published for one condition

  predicate Concerns(c: Check, tenant: string, key: string) { c.tenant == tenant && c.key == key && c.upsert }

  /** A state a condition was found in, and whether its record could be read then. */
  datatype Finding = Finding(state: string, read: bool)

  /** The states in which a condition was found and could be recorded, in order. */
  function StatesOf(cs: seq<Check>, tenant: string, key: string): seq<Finding> {
    if cs == [] then []
    else
      var c := cs[|cs| - 1];
      AddIf(StatesOf(cs[..|cs| - 1], tenant, key), Concerns(c, tenant, key), Finding(c.state, c.read))
  }

  function SentFor(sent: seq<Alert>, tenant: string, key: string): seq<string> {
    if sent == [] then []
    else
      var a := sent[|sent| - 1];
      AddIf(SentFor(sent[..|sent| - 1], tenant, key), a.tenant == tenant && a.key == key, a.state)
  }

  function Last(before: Option<string>, fs: seq<Finding>): Option<string> {
    if fs == [] then before else Some(fs[|fs| - 1].state)
  }

  /** Worth an alert: not "ok", and different from the state recorded as far as that could be read. */
  predicate News(before: Option<string>, f: Finding) { f.state != FINE && (f.read ==> before != Some(f.state)) }

  /** The states that were news, given the one just before each. */
  function Changes(before: Option<string>, fs: seq<Finding>): seq<string> {
    if fs == [] then []
    else
      var front, f := fs[..|fs| - 1], fs[|fs| - 1];
      AddIf(Changes(before, front), News(Last(before, front), f), f.state)
  }

  lemma SentMore(sent: seq<Alert>, a: Alert, tenant: string, key: string)
    ensures SentFor(sent + [a], tenant, key) ==
      AddIf(SentFor(sent, tenant, key), a.tenant == tenant && a.key == key, a.state)
  {
    assert (sent + [a])[..|sent|] == sent;
  }

  lemma ChangesMore(before: Option<string>, fs: seq<Finding>, f: Finding)
    ensures Changes(before, fs + [f]) == AddIf(Changes(before, fs), News(Last(before, fs), f), f.state)
  {
    assert (fs + [f])[..|fs|] == fs;
  }

  /** One more check, as one condition sees it. */
  lemma EvaluateOne(b: Board, c: Check, tenant: string, key: string)
    ensures Concerns(c, tenant, key) ==> Recorded(Evaluate(b, c), tenant, key) == Some(c.state)
    ensures Concerns(c, tenant, key) ==>
      SentFor(Evaluate(b, c).sent, tenant, key) ==
      AddIf(SentFor(b.sent, tenant, key), News(Recorded(b, tenant, key), Finding(c.state, c.read)), c.state)
    ensures !Concerns(c, tenant, key) ==> Recorded(Evaluate(b, c), tenant, key) == Recorded(b, tenant, key)
    ensures !Concerns(c, tenant, key) ==> SentFor(Evaluate(b, c).sent, tenant, key) == SentFor(b.sent, tenant, key)
  {
    SentMore(b.sent, Alert(c.tenant, c.key, c.state), tenant, key);
  }

  /** Over any sequence of checks, whatever other conditions come between and whichever
      records cannot be read or written: what is published for a condition is exactly the changes
      of its state, to something other than "ok", among the times it could be recorded; and the
      states whose record could not be read. */
  lemma {:induction false} PublishesTheChanges(b: Board, cs: seq<Check>, tenant: string, key: string)
    ensures SentFor(EvaluateAll(b, cs).sent, tenant, key)
         == SentFor(b.sent, tenant, key) + Changes(Recorded(b, tenant, key), StatesOf(cs, tenant, key))
    ensures Recorded(EvaluateAll(b, cs), tenant, key) == Last(Recorded(b, tenant, key), StatesOf(cs, tenant, key))
  {
    if cs != [] {
      var front, c := cs[..|cs| - 1], cs[|cs| - 1];
      PublishesTheChanges(b, front, tenant, key);
      EvaluateOne(EvaluateAll(b, front), c, tenant, key);
      ChangesMore(Recorded(b, tenant, key), StatesOf(front, tenant, key), Finding(c.state, c.read));
      hide News, Evaluate, SentFor, Recorded, Changes;
      var was, more := SentFor(b.sent, tenant, key), Changes(Recorded(b, tenant, key), StatesOf(front, tenant, key));
      assert was + more + [c.state] == was + (more + [c.state]);
    }
  }

  // ---- what follows from it

  function Rank(s: string): nat { if s == EXPIRED then 2 else if s == SOON then 1 else 0 }

  /** The states of a condition with a fixed end, at times that do not go back, the record always read. */
  ghost predicate Aging(fs: seq<Finding>) {
    && (forall f <- fs :: f.read && (f.state == FINE || f.state == SOON || f.state == EXPIRED))
    && (forall i, j | 0 <= i < j < |fs| :: Rank(fs[i].state) <= Rank(fs[j].state))
  }

  lemma StatesDiffer()
    ensures FINE != SOON && FINE != EXPIRED && SOON != EXPIRED
  {
    assert |FINE| == 2 && |SOON| == 4 && |EXPIRED| == 7;
  }

  lemma AlertsAge(alerts: seq<string>, last: Option<string>, s: string)
    requires AtMostBoth(alerts) && (s == FINE || s == SOON || s == EXPIRED)
    requires alerts != [] ==> last == Some(alerts[|alerts| - 1]) && Rank(alerts[|alerts| - 1]) <= Rank(s)
    ensures var more := AddIf(alerts, News(last, Finding(s, true)), s);
      AtMostBoth(more) && (more != [] ==> more[|more| - 1] == s)
  {
    StatesDiffer();
  }

  lemma {:induction false} AgingAlertsTwice(before: Option<string>, fs: seq<Finding>)
    requires Aging(fs)
    ensures AtMostBoth(Changes(before, fs))
    ensures var c := Changes(before, fs); c != [] ==> Last(before, fs) == Some(c[|c| - 1])
  {
    if fs != [] {
      var front, f := fs[..|fs| - 1], fs[|fs| - 1];
      AgingFront(fs);
      hide Aging, AtMostBoth, News, Rank;
      AgingAlertsTwice(before, front);
      AlertsAge(Changes(before, front), Last(before, front), f.state);
      assert f == Finding(f.state, true);
    }
  }

  lemma AgingFront(fs: seq<Finding>)
    requires Aging(fs) && fs != []
    ensures var front, f := fs[..|fs| - 1], fs[|fs| - 1];
      && Aging(front) && f.read && (f.state == FINE || f.state == SOON || f.state == EXPIRED)
      && (front != [] ==> Rank(front[|front| - 1].state) <= Rank(f.state))
  {
    assert fs[|fs| - 1] in fs && forall e <- fs[..|fs| - 1] :: e in fs;
  }

  lemma StatesAge(end: Time, window: Time, t: Time, u: Time)
    requires t <= u
    ensures Rank(StateAt(end, t, window)) <= Rank(StateAt(end, u, window))
  {
    StatesDiffer();
  }

  /** Checks at times that do not go back, those of one condition with a fixed end and its record read. */
  ghost predicate FixedEnd(cs: seq<Check>, times: seq<Time>, tenant: string, key: string, end: Time, window: Time) {
    && |times| == |cs| && (forall i, j | 0 <= i < j < |times| :: times[i] <= times[j])
    && forall i | 0 <= i < |cs| :: cs[i].tenant == tenant && cs[i].key == key ==>
      cs[i].read && cs[i].state == StateAt(end, times[i], window)
  }

  lemma {:induction false} FixedEndAges(cs: seq<Check>, times: seq<Time>, tenant: string, key: string, end: Time,
                                        window: Time, now: Time)
    requires FixedEnd(cs, times, tenant, key, end, window) && (times != [] ==> times[|times| - 1] <= now)
    ensures Aging(StatesOf(cs, tenant, key))
    ensures forall f <- StatesOf(cs, tenant, key) :: Rank(f.state) <= Rank(StateAt(end, now, window))
  {
    if cs != [] {
      var n := |cs| - 1;
      FixedEndAges(cs[..n], times[..n], tenant, key, end, window, times[n]);
      StatesAge(end, window, times[n], now);
    }
  }

  /** What is published of a condition with a fixed end. */
  predicate AtMostBoth(sent: seq<string>) {
    sent == [] || sent == [SOON] || sent == [EXPIRED] || sent == [SOON, EXPIRED]
  }

  lemma FixedEndAlerts(b: Board, cs: seq<Check>, times: seq<Time>, tenant: string, key: string, end: Time, window: Time)
    returns (more: seq<string>)
    requires FixedEnd(cs, times, tenant, key, end, window)
    ensures SentFor(EvaluateAll(b, cs).sent, tenant, key) == SentFor(b.sent, tenant, key) + more && AtMostBoth(more)
  {
    PublishesTheChanges(b, cs, tenant, key);
    if cs != [] { FixedEndAges(cs, times, tenant, key, end, window, times[|times| - 1]); }
    AgingAlertsTwice(Recorded(b, tenant, key), StatesOf(cs, tenant, key));
    more := Changes(Recorded(b, tenant, key), StatesOf(cs, tenant, key));
  }

  ghost predicate Settled(b: Board, cs: seq<Check>) {
    forall i | 0 <= i < |cs| :: Recorded(b, cs[i].tenant, cs[i].key) == Some(cs[i].state)
  }

  /** Of a state already recorded: it was read, or cannot be written, or is nothing to alert. */
  predicate Quiet(c: Check) { c.read || !c.upsert || c.state == FINE }

  lemma {:induction false} SettledStays(b: Board, cs: seq<Check>)
    requires Settled(b, cs) && forall i | 0 <= i < |cs| :: Quiet(cs[i])
    ensures EvaluateAll(b, cs) == b
  {
    if cs != [] { SettledStays(b, cs[..|cs| - 1]); }
  }

  ghost predicate OneEach(cs: seq<Check>) {
    forall i, j | 0 <= i < j < |cs| :: (cs[i].tenant, cs[i].key) != (cs[j].tenant, cs[j].key)
  }

  lemma {:induction false} SweepSettles(b: Board, cs: seq<Check>)
    requires OneEach(cs) && forall i | 0 <= i < |cs| :: cs[i].upsert
    ensures Settled(EvaluateAll(b, cs), cs)
  {
    if cs != [] {
      var n := |cs| - 1;
      SweepSettles(b, cs[..n]);
      forall i | 0 <= i < n ensures Recorded(EvaluateAll(b, cs), cs[i].tenant, cs[i].key) == Some(cs[i].state) {
        assert cs[..n][i] == cs[i] && (cs[i].tenant, cs[i].key) != (cs[n].tenant, cs[n].key);
      }
    }
  }

  // ---- the rows

  /** Rows as the sweeps read them. The end of an asset is that of its warranty. */
  datatype Dated = Dated(end: Option<Time>, status: string)
  datatype Stock = Stock(amount: int, min: int)

  /** Everything a sweep reads and writes. */
  datatype Desk = Desk(board: Board, assets: Table<Dated>, licenses: Table<Dated>, policies: Table<Dated>,
                       consumables: Table<Stock>)

  /** What a sweep is asked: the tenant, the time and the windows; and which listings, which
      reads and writes of records, and which updates of rows succeed. */
  datatype Order = Order(tenant: string, now: Time, windows: (Time, Time, Time), lists: Kind -> bool,
                         gets: string -> bool, writes: string -> bool, updates: string -> bool)

  const ARCHIVED := "archived"
  const SUSPENDED := "suspended"
  const CANCELLED := "cancelled"

  /** The status that takes rows of a kind out of the sweep. */
  function Off(kind: Kind): string {
    match kind
    case Warranted => ARCHIVED
    case Licensed => SUSPENDED
    case Insured => CANCELLED
    case LowStock => ""
  }

  function Window(windows: (Time, Time, Time), kind: Kind): Time {
    if kind.Warranted? then windows.0 else if kind.Licensed? then windows.1 else windows.2
  }

  predicate Swept(kind: Kind, r: Row<Dated>) { r.body.end.Some? && r.body.status != Off(kind) }

  function CheckOf(kind: Kind, r: Row<Dated>, o: Order): Check
    requires Swept(kind, r)
  {
    var key := Key(kind, r.id);
    Check(o.tenant, key, StateAt(r.body.end.value, o.now, Window(o.windows, kind)), o.gets(key), o.writes(key))
  }

  function StockCheck(r: Row<Stock>, o: Order): Check {
    var key := Key(LowStock, r.id);
    Check(o.tenant, key, StockState(r.body.amount, r.body.min), o.gets(key), o.writes(key))
  }

  /** A lapsed license or policy becomes expired. */
  predicate Lapses(kind: Kind, r: Row<Dated>, now: Time) {
    (kind.Licensed? || kind.Insured?) && Swept(kind, r) && r.body.end.value < now && r.body.status != EXPIRED
  }

  function Lapsed(kind: Kind, r: Row<Dated>, o: Order): Row<Dated> {
    if Lapses(kind, r, o.now) && o.updates(r.id) then r.(updated := o.now, body := r.body.(status := EXPIRED)) else r
  }

  function LapseAll(kind: Kind, t: Table<Dated>, ids: set<string>, o: Order): Table<Dated> {
    map x | x in t :: if x in ids then Lapsed(kind, t[x], o) else t[x]
  }

  /** A table after the sweep of its kind. */
  function SweptTable(kind: Kind, t: Table<Dated>, o: Order): Table<Dated> {
    if o.lists(kind) then LapseAll(kind, t, IdsOf(t, o.tenant), o) else t
  }

  // ---- what a sweep checks

  /** The check due for a row of a dated table, if any. */
  function DueIn(kind: Kind, t: Table<Dated>, o: Order, x: string): Option<Check> {
    if Has(t, o.tenant, x) && Swept(kind, t[x]) then Some(CheckOf(kind, t[x], o)) else None
  }

  /** The check due for a consumable: only those with a minimum. */
  function DueStock(t: Table<Stock>, o: Order, x: string): Option<Check> {
    if Has(t, o.tenant, x) && t[x].body.min > 0 then Some(StockCheck(t[x], o)) else None
  }

  function TableOf(d: Desk, kind: Kind): Table<Dated> {
    match kind
    case Warranted => d.assets
    case Licensed => d.licenses
    case Insured => d.policies
    case LowStock => map[]
  }

  function Due(d: Desk, o: Order, kind: Kind, x: string): Option<Check> {
    if !o.lists(kind) then None
    else if kind.LowStock? then DueStock(d.consumables, o, x)
    else DueIn(kind, TableOf(d, kind), o, x)
  }

  /** Each check that is due once, and no other. */
  ghost predicate ChecksKind(d: Desk, o: Order, kind: Kind, cs: seq<Check>) {
    OneEach(cs) && forall c :: c in cs <==> exists x :: Due(d, o, kind, x) == Some(c)
  }

  ghost predicate IsDue(d: Desk, o: Order, c: Check) { exists kind: Kind, x: string :: Due(d, o, kind, x) == Some(c) }

  ghost predicate ChecksAll(d: Desk, o: Order, cs: seq<Check>) {
    OneEach(cs) && forall c :: c in cs <==> IsDue(d, o, c)
  }

  ghost predicate KeyedDesk(d: Desk) {
    Keyed(d.assets) && Keyed(d.licenses) && Keyed(d.policies) && Keyed(d.consumables)
  }

  lemma DueIsOfRow(d: Desk, o: Order, kind: Kind, x: string)
    requires KeyedDesk(d) && Due(d, o, kind, x).Some?
    ensures Due(d, o, kind, x).value.tenant == o.tenant && Due(d, o, kind, x).value.key == Key(kind, x)
  {
  }

  /** A sweep: it evaluates exactly the checks that are due, and lapsed rows become expired where the update
      succeeds. */
  ghost predicate Sweeps(d: Desk, n: Desk, o: Order, cs: seq<Check>) {
    && ChecksAll(d, o, cs) && n.board == EvaluateAll(d.board, cs)
    && n.assets == d.assets && n.consumables == d.consumables
    && n.licenses == SweptTable(Licensed, d.licenses, o) && n.policies == SweptTable(Insured, d.policies, o)
  }

  // ---- listings

  function DatedChecks(kind: Kind, rows: seq<Row<Dated>>, o: Order): seq<Check> {
    if rows == [] then []
    else
      var front, r := DatedChecks(kind, rows[..|rows| - 1], o), rows[|rows| - 1];
      if Swept(kind, r) then front + [CheckOf(kind, r, o)] else front
  }

  function StockChecks(rows: seq<Row<Stock>>, o: Order): seq<Check> {
    if rows == [] then []
    else
      var front, r := StockChecks(rows[..|rows| - 1], o), rows[|rows| - 1];
      if r.body.min > 0 then front + [StockCheck(r, o)] else front
  }

  /** Every check is of one of the rows. */
  ghost predicate Only(kind: Kind, ids: set<string>, tenant: string, cs: seq<Check>) {
    forall c <- cs :: c.tenant == tenant && exists x <- ids :: c.key == Key(kind, x)
  }

  lemma NewKey(kind: Kind, ids: set<string>, tenant: string, cs: seq<Check>, id: string)
    requires Only(kind, ids, tenant, cs) && id !in ids
    ensures forall c <- cs :: c.key != Key(kind, id)
  {
    forall c <- cs ensures c.key != Key(kind, id) {
      var x :| x in ids && c.key == Key(kind, x);
      if c.key == Key(kind, id) { KeysApart(kind, kind, x, id); }
    }
  }

  lemma {:induction false} DatedOnly(kind: Kind, rows: seq<Row<Dated>>, o: Order)
    requires Distinct(rows)
    ensures Only(kind, IdSet(rows), o.tenant, DatedChecks(kind, rows, o)) && OneEach(DatedChecks(kind, rows, o))
  {
    if rows != [] {
      var front, r := rows[..|rows| - 1], rows[|rows| - 1];
      DatedOnly(kind, front, o);
      NewKey(kind, IdSet(front), o.tenant, DatedChecks(kind, front, o), r.id);
      assert r.id in IdSet(rows) && IdSet(front) <= IdSet(rows);
      hide IdSet, Distinct, Key;
    }
  }

  lemma {:induction false} StockOnly(rows: seq<Row<Stock>>, o: Order)
    requires Distinct(rows)
    ensures Only(LowStock, IdSet(rows), o.tenant, StockChecks(rows, o)) && OneEach(StockChecks(rows, o))
  {
    if rows != [] {
      var front, r := rows[..|rows| - 1], rows[|rows| - 1];
      StockOnly(front, o);
      NewKey(LowStock, IdSet(front), o.tenant, StockChecks(front, o), r.id);
      assert r.id in IdSet(rows) && IdSet(front) <= IdSet(rows);
      hide IdSet, Distinct, Key;
    }
  }

  lemma {:induction false} DatedHas(kind: Kind, rows: seq<Row<Dated>>, o: Order, c: Check)
    ensures c in DatedChecks(kind, rows, o) <==> exists r <- rows :: Swept(kind, r) && c == CheckOf(kind, r, o)
  {
    if rows != [] {
      var front, r := rows[..|rows| - 1], rows[|rows| - 1];
      DatedHas(kind, front, o, c);
      assert rows == front + [r];
      hide CheckOf;
    }
  }

  lemma {:induction false} StockHas(rows: seq<Row<Stock>>, o: Order, c: Check)
    ensures c in StockChecks(rows, o) <==> exists r <- rows :: r.body.min > 0 && c == StockCheck(r, o)
  {
    if rows != [] {
      var front, r := rows[..|rows| - 1], rows[|rows| - 1];
      StockHas(front, o, c);
      assert rows == front + [r];
      hide StockCheck;
    }
  }

  lemma ListedRow<B>(rows: seq<Row<B>>, t: Table<B>, tenant: string, x: string)
    requires Keyed(t) && Lists(rows, t, tenant) && Has(t, tenant, x)
    ensures t[x] in rows
  {
    assert x in IdsOf(t, tenant);
    InIdSet(rows, x);
  }

  lemma RowListed<B>(rows: seq<Row<B>>, t: Table<B>, tenant: string, r: Row<B>)
    requires Lists(rows, t, tenant) && r in rows
    ensures Has(t, tenant, r.id) && t[r.id] == r
  {
    InIdSet(rows, r.id);
    assert r.id in IdsOf(t, tenant);
  }

  /** The checks of a listing are those due, in whatever order the rows are listed. */
  lemma DatedIsDue(d: Desk, o: Order, kind: Kind, rows: seq<Row<Dated>>)
    requires !kind.LowStock? && o.lists(kind)
    requires Keyed(TableOf(d, kind)) && Lists(rows, TableOf(d, kind), o.tenant)
    ensures ChecksKind(d, o, kind, DatedChecks(kind, rows, o))
  {
    var t := TableOf(d, kind);
    assert Distinct(rows);
    DatedOnly(kind, rows, o);
    forall c ensures c in DatedChecks(kind, rows, o) <==> exists x :: Due(d, o, kind, x) == Some(c) {
      DatedHas(kind, rows, o, c);
      hide Lists, Keyed, DatedChecks, CheckOf, OneEach, Only;
      if c in DatedChecks(kind, rows, o) {
        var r :| r in rows && Swept(kind, r) && c == CheckOf(kind, r, o);
        RowListed(rows, t, o.tenant, r);
        assert Due(d, o, kind, r.id) == Some(c);
      }
      if x :| Due(d, o, kind, x) == Some(c) { ListedRow(rows, t, o.tenant, x); }
    }
  }

  lemma StockIsDue(d: Desk, o: Order, rows: seq<Row<Stock>>)
    requires o.lists(LowStock) && Keyed(d.consumables) && Lists(rows, d.consumables, o.tenant)
    ensures ChecksKind(d, o, LowStock, StockChecks(rows, o))
  {
    var t := d.consumables;
    assert Distinct(rows);
    StockOnly(rows, o);
    forall c ensures c in StockChecks(rows, o) <==> exists x :: Due(d, o, LowStock, x) == Some(c) {
      StockHas(rows, o, c);
      hide Lists, Keyed, StockChecks, StockCheck, OneEach, Only;
      if c in StockChecks(rows, o) {
        var r :| r in rows && r.body.min > 0 && c == StockCheck(r, o);
        RowListed(rows, t, o.tenant, r);
        assert Due(d, o, LowStock, r.id) == Some(c);
      }
      if x :| Due(d, o, LowStock, x) == Some(c) { ListedRow(rows, t, o.tenant, x); }
    }
  }

  // ---- the four kinds together

  lemma {:induction false} EvaluateMore(b: Board, cs: seq<Check>, ds: seq<Check>)
    ensures EvaluateAll(EvaluateAll(b, cs), ds) == EvaluateAll(b, cs + ds)
  {
    if ds == [] {
      assert cs + ds == cs;
    } else {
      EvaluateMore(b, cs, ds[..|ds| - 1]);
      assert (cs + ds)[..|cs + ds| - 1] == cs + ds[..|ds| - 1];
      hide Evaluate;
    }
  }

  lemma KindsApart(d: Desk, o: Order, a: Kind, b: Kind, cs: seq<Check>, ds: seq<Check>)
    requires KeyedDesk(d) && a != b && ChecksKind(d, o, a, cs) && ChecksKind(d, o, b, ds)
    ensures forall c, e | c in cs && e in ds :: c.key != e.key
  {
    forall c, e | c in cs && e in ds ensures c.key != e.key {
      var x :| Due(d, o, a, x) == Some(c);
      var y :| Due(d, o, b, y) == Some(e);
      DueIsOfRow(d, o, a, x);
      DueIsOfRow(d, o, b, y);
      hide Key, Due;
      if c.key == e.key { KeysApart(a, b, x, y); }
    }
  }

  lemma OneEachJoins(cs: seq<Check>, ds: seq<Check>)
    requires OneEach(cs) && OneEach(ds) && forall c, d | c in cs && d in ds :: c.key != d.key
    ensures OneEach(cs + ds)
  {
  }

  lemma FourKinds(d: Desk, o: Order, ws: seq<Check>, ls: seq<Check>, ps: seq<Check>, ss: seq<Check>)
    requires KeyedDesk(d) && ChecksKind(d, o, Warranted, ws) && ChecksKind(d, o, Licensed, ls)
    requires ChecksKind(d, o, Insured, ps) && ChecksKind(d, o, LowStock, ss)
    ensures ChecksAll(d, o, ws + ls + ps + ss)
  {
    KindsApart(d, o, Warranted, Licensed, ws, ls);
    KindsApart(d, o, Warranted, Insured, ws, ps);
    KindsApart(d, o, Warranted, LowStock, ws, ss);
    KindsApart(d, o, Licensed, Insured, ls, ps);
    KindsApart(d, o, Licensed, LowStock, ls, ss);
    KindsApart(d, o, Insured, LowStock, ps, ss);
    hide Due, KeyedDesk;
    assert OneEach(ws + ls + ps + ss) by {
      hide OneEach;
      OneEachJoins(ws, ls);
      OneEachJoins(ws + ls, ps);
      OneEachJoins(ws + ls + ps, ss);
    }
    hide OneEach;
    forall c ensures c in ws + ls + ps + ss <==> IsDue(d, o, c) {
      if kind: Kind, x: string :| Due(d, o, kind, x) == Some(c) {
        assert kind == Warranted || kind == Licensed || kind == Insured || kind == LowStock;
      }
    }
  }

  // ---- the worker

  class Worker {
    var notify: map<(string, string), string>
    var sent: seq<Alert>
    var assets: Table<Dated>
    var licenses: Table<Dated>
    var policies: Table<Dated>
    var consumables: Table<Stock>

    function Now(): Board
      reads this
    {
      Board(notify, sent)
    }

    function View(): Desk
      reads this
    {
      Desk(Now(), assets, licenses, policies, consumables)
    }

    /** Whether the state differs from the one recorded, and is recorded and worth an alert. */
    method ShouldNotify(c: Check) returns (alert: bool)
      modifies this`notify
      ensures Evaluate(old(Now()), c) == Now().(sent := AddIf(sent, alert, Alert(c.tenant, c.key, c.state)))
    {
      if c.read && (c.tenant, c.key) in notify && notify[(c.tenant, c.key)] == c.state {
        return false;
      }
      if !c.upsert {
        return false;
      }
      notify := notify[(c.tenant, c.key) := c.state];
      alert := c.state != FINE;
    }

    method Notify(c: Check)
      modifies this`notify, this`sent
      ensures Now() == Evaluate(old(Now()), c)
    {
      var alert := ShouldNotify(c);
      if alert {
        sent := sent + [Alert(c.tenant, c.key, c.state)];
      }
    }

    /** Evaluates the tenant's rows of a table, if they can be listed; those that lapsed become
        expired where the update succeeds. */
    method SweepDated(kind: Kind, t: Table<Dated>, o: Order, ghost d: Desk)
      returns (n: Table<Dated>, ghost cs: seq<Check>)
      requires !kind.LowStock? && t == TableOf(d, kind) && Keyed(t)
      modifies this`notify, this`sent
      ensures Now() == EvaluateAll(old(Now()), cs) && ChecksKind(d, o, kind, cs)
      ensures n == SweptTable(kind, t, o)
    {
      if !o.lists(kind) {
        return t, [];
      }
      var rows := Wipe.ListRows(t, o.tenant);
      n := SweepRows(kind, rows, t, o);
      cs := DatedChecks(kind, rows, o);
      DatedIsDue(d, o, kind, rows);
    }

    method SweepRows(kind: Kind, rows: seq<Row<Dated>>, t: Table<Dated>, o: Order) returns (n: Table<Dated>)
      requires !kind.LowStock? && Lists(rows, t, o.tenant)
      modifies this`notify, this`sent
      ensures Now() == EvaluateAll(old(Now()), DatedChecks(kind, rows, o))
      ensures n == LapseAll(kind, t, IdSet(rows), o)
    {
      n := t;
      SweepBegins(old(Now()), kind, rows, t, o);
      hide Lists, Distinct, IdSet, LapseAll, Evaluate, Lapsed, CheckOf, Swept, DatedChecks, EvaluateAll;
      for i := 0 to |rows|
        invariant Now() == EvaluateAll(old(Now()), DatedChecks(kind, rows[..i], o))
        invariant n == LapseAll(kind, t, IdSet(rows[..i]), o)
      {
        SweepAdvances(old(Now()), kind, rows, i, t, o);
        n := SweepRow(kind, rows[i], n, o);
      }
      Seqs.TakeAll(rows);
    }

    method SweepRow(kind: Kind, r: Row<Dated>, t: Table<Dated>, o: Order) returns (n: Table<Dated>)
      requires !kind.LowStock? && r.id in t && t[r.id] == r
      modifies this`notify, this`sent
      ensures Now() == if Swept(kind, r) then Evaluate(old(Now()), CheckOf(kind, r, o)) else old(Now())
      ensures n == t[r.id := Lapsed(kind, r, o)]
    {
      n := t;
      if r.body.end.Some? && r.body.status != Off(kind) {
        var key, end, now := Key(kind, r.id), r.body.end.value, o.now;
        var state := if end < now then EXPIRED else if end - now <= Window(o.windows, kind) then SOON else FINE;
        StatesDiffer();
        if (kind.Licensed? || kind.Insured?) && state == EXPIRED && r.body.status != EXPIRED && o.updates(r.id) {
          n := n[r.id := r.(updated := now, body := r.body.(status := EXPIRED))];
        }
        Notify(Check(o.tenant, key, state, o.gets(key), o.writes(key)));
      }
    }

    /** Evaluates the tenant's consumables that have a minimum, and no others. */
    method SweepStock(o: Order, ghost d: Desk) returns (ghost cs: seq<Check>)
      requires consumables == d.consumables && Keyed(consumables)
      modifies this`notify, this`sent
      ensures Now() == EvaluateAll(old(Now()), cs) && ChecksKind(d, o, LowStock, cs)
    {
      cs := [];
      if !o.lists(LowStock) {
        return;
      }
      var rows := Wipe.ListRows(consumables, o.tenant);
      StockIsDue(d, o, rows);
      hide Lists, Keyed, Distinct, Evaluate, StockCheck, IdSet, ChecksKind;
      for i := 0 to |rows|
        invariant cs == StockChecks(rows[..i], o)
        invariant Now() == EvaluateAll(old(Now()), cs)
      {
        Seqs.TakeMore(rows, i);
        if rows[i].body.min > 0 {
          EvaluatePush(old(Now()), cs, StockCheck(rows[i], o));
          Notify(StockCheck(rows[i], o));
          cs := cs + [StockCheck(rows[i], o)];
        }
      }
      Seqs.TakeAll(rows);
    }

    /** One sweep of a tenant. */
    method Sweep(o: Order) returns (ghost cs: seq<Check>)
      requires KeyedDesk(View())
      modifies this
      ensures Sweeps(old(View()), View(), o, cs)
    {
      ghost var d := View();
      var same, ws := SweepDated(Warranted, assets, o, d);
      ghost var ls, ps;
      licenses, ls := SweepDated(Licensed, licenses, o, d);
      policies, ps := SweepDated(Insured, policies, o, d);
      ghost var ss := SweepStock(o, d);
      cs := ws + ls + ps + ss;
      EvaluateMore(d.board, ws, ls);
      EvaluateMore(d.board, ws + ls, ps);
      EvaluateMore(d.board, ws + ls + ps, ss);
      FourKinds(d, o, ws, ls, ps, ss);
      hide ChecksKind, ChecksAll, EvaluateAll, SweptTable, KeyedDesk;
    }
  }

  lemma EvaluatePush(b: Board, cs: seq<Check>, c: Check)
    ensures EvaluateAll(b, cs + [c]) == Evaluate(EvaluateAll(b, cs), c)
  {
    assert (cs + [c])[..|cs + [c]| - 1] == cs;
    hide Evaluate;
  }

  lemma NextId<B>(rows: seq<Row<B>>, i: nat)
    requires i < |rows| && Distinct(rows)
    ensures IdSet(rows[..i + 1]) == IdSet(rows[..i]) + {rows[i].id} && rows[i].id !in IdSet(rows[..i])
  {
    assert rows[..i + 1][..i] == rows[..i];
    forall j | 0 <= j < i ensures rows[..i][j].id != rows[i].id { DistinctApart(rows, j, i); }
    InIdSet(rows[..i], rows[i].id);
  }

  lemma LapseNext(kind: Kind, t: Table<Dated>, ids: set<string>, r: Row<Dated>, o: Order)
    requires r.id in t && t[r.id] == r && r.id !in ids
    ensures var n := LapseAll(kind, t, ids, o);
      r.id in n && n[r.id] == r && n[r.id := Lapsed(kind, r, o)] == LapseAll(kind, t, ids + {r.id}, o)
  {
  }

  lemma SweepBegins(b: Board, kind: Kind, rows: seq<Row<Dated>>, t: Table<Dated>, o: Order)
    ensures t == LapseAll(kind, t, IdSet(rows[..0]), o) && EvaluateAll(b, DatedChecks(kind, rows[..0], o)) == b
  {
    assert IdSet(rows[..0]) == {};
  }

  /** What the next row of a listing adds to the sweep. */
  lemma SweepAdvances(b: Board, kind: Kind, rows: seq<Row<Dated>>, i: nat, t: Table<Dated>, o: Order)
    requires Lists(rows, t, o.tenant) && i < |rows|
    ensures var r, n := rows[i], LapseAll(kind, t, IdSet(rows[..i]), o);
      r.id in n && n[r.id] == r && n[r.id := Lapsed(kind, r, o)] == LapseAll(kind, t, IdSet(rows[..i + 1]), o)
    ensures var c := EvaluateAll(b, DatedChecks(kind, rows[..i], o));
      EvaluateAll(b, DatedChecks(kind, rows[..i + 1], o)) == if Swept(kind, rows[i]) then Evaluate(c,
          CheckOf(kind, rows[i], o)) else c
  {
    assert rows[i] in rows && Distinct(rows);
    RowListed(rows, t, o.tenant, rows[i]);
    NextId(rows, i);
    LapseNext(kind, t, IdSet(rows[..i]), rows[i], o);
    Seqs.TakeMore(rows, i);
    hide Lists, IdSet, LapseAll, Lapsed, Evaluate, CheckOf;
    if Swept(kind, rows[i]) { EvaluatePush(b, DatedChecks(kind, rows[..i], o), CheckOf(kind, rows[i], o)); }
  }

  // ---- runs of sweeps

  /** Between sweeps of any tenants anything may be done to the rows; the record is the sweeps' own. */
  datatype Event = Round(order: Order, checks: seq<Check>) | Edited

  ghost predicate Happens(d: Desk, n: Desk, e: Event) {
    && KeyedDesk(d) && KeyedDesk(n)
    && match e
       case Round(o, cs) => Sweeps(d, n, o, cs)
       case Edited => n.board == d.board
  }

  ghost predicate IsRun(ds: seq<Desk>, es: seq<Event>) {
    |ds| == |es| + 1 && forall i | 0 <= i < |es| :: Happens(ds[i], ds[i + 1], es[i])
  }

  /** Everything checked, in order, and when. */
  function AllChecks(es: seq<Event>): seq<Check> {
    if es == [] then []
    else
      var front, e := AllChecks(es[..|es| - 1]), es[|es| - 1];
      if e.Round? then front + e.checks else front
  }

  function AllTimes(es: seq<Event>): seq<Time> {
    if es == [] then []
    else
      var front, e := AllTimes(es[..|es| - 1]), es[|es| - 1];
      if e.Round? then front + seq(|e.checks|, _ => e.order.now) else front
  }

  lemma {:induction false} RunEvaluates(ds: seq<Desk>, es: seq<Event>)
    requires IsRun(ds, es)
    ensures ds[|es|].board == EvaluateAll(ds[0].board, AllChecks(es))
  {
    if es != [] {
      var n := |es| - 1;
      RunEvaluates(ds[..n + 1], es[..n]);
      assert Happens(ds[n], ds[n + 1], es[n]);
      if es[n].Round? { EvaluateMore(ds[0].board, AllChecks(es[..n]), es[n].checks); }
    }
  }

  /** The clock does not go back, and the windows stay. */
  ghost predicate Forward(es: seq<Event>, windows: (Time, Time, Time)) {
    && (forall i | 0 <= i < |es| && es[i].Round? :: es[i].order.windows == windows)
    && (forall i, j | 0 <= i < j < |es| && es[i].Round? && es[j].Round? :: es[i].order.now <= es[j].order.now)
  }

  /** Whenever the row is there, and has an end, it is this one. */
  ghost predicate KeepsEnd(ds: seq<Desk>, kind: Kind, tenant: string, x: string, end: Time) {
    forall i | 0 <= i < |ds| :: EndIs(TableOf(ds[i], kind), tenant, x, end)
  }

  predicate EndIs(t: Table<Dated>, tenant: string, x: string, end: Time) {
    Has(t, tenant, x) ==> t[x].body.end.None? || t[x].body.end == Some(end)
  }

  /** The record of the row is read whenever its tenant is swept. */
  ghost predicate AlwaysRead(es: seq<Event>, tenant: string, key: string) {
    forall i | 0 <= i < |es| && es[i].Round? && es[i].order.tenant == tenant :: es[i].order.gets(key)
  }

  /** A check of the row in a sweep is of its state at that time. */
  lemma SweptState(d: Desk, o: Order, cs: seq<Check>, kind: Kind, x: string, c: Check, end: Time)
    requires KeyedDesk(d) && ChecksAll(d, o, cs) && !kind.LowStock? && c in cs && c.tenant == o.tenant
    requires c.key == Key(kind, x)
    requires EndIs(TableOf(d, kind), o.tenant, x, end)
    ensures c.state == StateAt(end, o.now, Window(o.windows, kind)) && c.read == o.gets(c.key)
  {
    assert IsDue(d, o, c);
    var k: Kind, y: string :| Due(d, o, k, y) == Some(c);
    DueIsOfRow(d, o, k, y);
    hide Key;
    KeysApart(k, kind, y, x);
  }

  lemma CheckTenant(d: Desk, o: Order, cs: seq<Check>, c: Check)
    requires KeyedDesk(d) && ChecksAll(d, o, cs) && c in cs
    ensures c.tenant == o.tenant
  {
    assert IsDue(d, o, c);
    var k: Kind, y: string :| Due(d, o, k, y) == Some(c);
    DueIsOfRow(d, o, k, y);
  }

  lemma {:induction false} TimesUpTo(es: seq<Event>, now: Time)
    requires forall i | 0 <= i < |es| && es[i].Round? :: es[i].order.now <= now
    ensures |AllTimes(es)| == |AllChecks(es)| && forall t <- AllTimes(es) :: t <= now
  {
    if es != [] { TimesUpTo(es[..|es| - 1], now); }
  }

  /** One more sweep of a row with a fixed end, no earlier than those before. */
  lemma FixedEndMore(cs: seq<Check>, times: seq<Time>, more: seq<Check>, now: Time, tenant: string, key: string,
                     end: Time, window: Time)
    requires FixedEnd(cs, times, tenant, key, end, window) && forall t <- times :: t <= now
    requires forall c <- more :: c.tenant == tenant && c.key == key ==> c.read && c.state == StateAt(end, now, window)
    ensures FixedEnd(cs + more, times + seq(|more|, _ => now), tenant, key, end, window)
  {
    var all, ts := cs + more, times + seq(|more|, _ => now);
    forall i, j | 0 <= i < j < |ts| ensures ts[i] <= ts[j] {
      if i < |times| { assert times[i] in times; }
    }
    forall i | 0 <= i < |all| && all[i].tenant == tenant && all[i].key == key
      ensures all[i].read && all[i].state == StateAt(end, ts[i], window)
    {
      if i >= |cs| { assert all[i] in more; }
    }
  }

  lemma {:induction false} RunHasFixedEnd(ds: seq<Desk>, es: seq<Event>, kind: Kind, tenant: string, x: string,
                                          end: Time, windows: (Time, Time, Time))
    requires IsRun(ds, es) && Forward(es, windows) && AlwaysRead(es, tenant, Key(kind, x))
    requires !kind.LowStock? && KeepsEnd(ds, kind, tenant, x, end)
    ensures FixedEnd(AllChecks(es), AllTimes(es), tenant, Key(kind, x), end, Window(windows, kind))
  {
    if es != [] {
      var n := |es| - 1;
      RunHasFixedEnd(ds[..n + 1], es[..n], kind, tenant, x, end, windows);
      assert Happens(ds[n], ds[n + 1], es[n]);
      if es[n].Round? {
        var o, cs := es[n].order, es[n].checks;
        TimesUpTo(es[..n], o.now);
        assert EndIs(TableOf(ds[n], kind), tenant, x, end);
        forall c <- cs | c.tenant == tenant && c.key == Key(kind, x)
          ensures c.read && c.state == StateAt(end, o.now, Window(windows, kind))
        {
          CheckTenant(ds[n], o, cs, c);
          SweptState(ds[n], o, cs, kind, x, c, end);
        }
        hide Key, StateAt, FixedEnd, Happens, Window;
        FixedEndMore(AllChecks(es[..n]), AllTimes(es[..n]), cs, o.now, tenant, Key(kind, x), end,
                     Window(windows, kind));
      }
    }
  }

  /** Over any run of sweeps of any tenants under a clock that does not go back, with any edits
      between, whichever listings and writes fail: a license, a policy or a warranty whose end
      stays the same and whose record can be read is alerted, from then on, at most once as ending soon and at
      most once as expired, in that order, whatever becomes of its status. */
  lemma AtMostTwice(ds: seq<Desk>, es: seq<Event>, kind: Kind, tenant: string, x: string, end: Time,
                    windows: (Time, Time, Time))
    returns (more: seq<string>)
    requires IsRun(ds, es) && Forward(es, windows) && AlwaysRead(es, tenant, Key(kind, x))
    requires !kind.LowStock? && KeepsEnd(ds, kind, tenant, x, end)
    ensures AtMostBoth(more)
    ensures SentFor(ds[|es|].board.sent, tenant, Key(kind, x)) == SentFor(ds[0].board.sent, tenant, Key(kind, x)) + more
  {
    RunHasFixedEnd(ds, es, kind, tenant, x, end, windows);
    RunEvaluates(ds, es);
    more := FixedEndAlerts(ds[0].board, AllChecks(es), AllTimes(es), tenant, Key(kind, x), end, Window(windows, kind));
  }

  // ---- a sweep repeated

  /** Sweeps of one tenant at the same instant. */
  predicate SameInstant(o: Order, p: Order) { p.tenant == o.tenant && p.now == o.now && p.windows == o.windows }

  /** What is due after a sweep was due before it, in the same state: a row that lapsed is still swept. */
  lemma DueAgain(d: Desk, n: Desk, o: Order, p: Order, cs: seq<Check>, kind: Kind, x: string)
    requires Sweeps(d, n, o, cs) && SameInstant(o, p) && o.lists(kind) && Due(n, p, kind, x).Some?
    ensures Due(d, o, kind, x).Some?
    ensures var was, c := Due(d, o, kind, x).value, Due(n, p, kind, x).value;
      was.tenant == c.tenant && was.key == c.key && was.state == c.state
  {
    StatusesDiffer();
    hide ChecksAll, EvaluateAll, StateAt, StockState, Key;
  }

  lemma StatusesDiffer()
    ensures EXPIRED != SUSPENDED && EXPIRED != CANCELLED
  {
    assert |EXPIRED| != |SUSPENDED| && |EXPIRED| != |CANCELLED|;
  }

  lemma RepeatSettled(d: Desk, n: Desk, m: Desk, o: Order, p: Order, cs: seq<Check>, again: seq<Check>)
    requires KeyedDesk(d) && Sweeps(d, n, o, cs) && Sweeps(n, m, p, again) && SameInstant(o, p)
    requires (forall c <- cs :: c.upsert) && forall kind :: p.lists(kind) ==> o.lists(kind)
    ensures Settled(n.board, again)
  {
    assert forall i | 0 <= i < |cs| :: cs[i] in cs;
    SweepSettles(d.board, cs);
    forall i | 0 <= i < |again| ensures Recorded(n.board, again[i].tenant, again[i].key) == Some(again[i].state) {
      var c := again[i];
      assert c in again && IsDue(n, p, c);
      var kind: Kind, x: string :| Due(n, p, kind, x) == Some(c);
      assert p.lists(kind);
      DueAgain(d, n, o, p, cs, kind, x);
      var e := Due(d, o, kind, x).value;
      assert IsDue(d, o, e);
      hide Due, IsDue, EvaluateAll;
      assert e in cs;
    }
  }

  /** After a sweep whose records could all be written, another one of the tenant at the same
      instant, over any listing, publishes nothing and records nothing new: exactly when no
      record of a state to alert can then be written but not read. */
  lemma RepeatIsSilent(d: Desk, n: Desk, m: Desk, o: Order, p: Order, cs: seq<Check>, again: seq<Check>)
    requires KeyedDesk(d) && KeyedDesk(n) && Sweeps(d, n, o, cs) && Sweeps(n, m, p, again) && SameInstant(o, p)
    requires (forall c <- cs :: c.upsert) && forall kind :: p.lists(kind) ==> o.lists(kind)
    ensures m.board == n.board <==> forall c <- again :: Quiet(c)
  {
    RepeatSettled(d, n, m, o, p, cs, again);
    assert forall i | 0 <= i < |again| :: again[i] in again;
    if forall c <- again :: Quiet(c) {
      SettledStays(n.board, again);
    } else {
      var c :| c in again && !Quiet(c);
      assert IsDue(n, p, c);
      var kind: Kind, x: string :| Due(n, p, kind, x) == Some(c);
      UnreadRepeats(n, m, p, again, kind, x);
      assert |SentFor(m.board.sent, p.tenant, Key(kind, x))| == |SentFor(n.board.sent, p.tenant, Key(kind, x))| + 1;
    }
  }

  // ---- a condition that comes back

  lemma {:induction false} NoStates(cs: seq<Check>, tenant: string, key: string)
    requires forall c <- cs :: !Concerns(c, tenant, key)
    ensures StatesOf(cs, tenant, key) == []
  {
    if cs != [] {
      assert cs[|cs| - 1] in cs;
      NoStates(cs[..|cs| - 1], tenant, key);
    }
  }

  lemma {:induction false} OneState(cs: seq<Check>, i: nat)
    requires OneEach(cs) && i < |cs| && cs[i].upsert
    ensures StatesOf(cs, cs[i].tenant, cs[i].key) == [Finding(cs[i].state, cs[i].read)]
  {
    var n := |cs| - 1;
    if i == n {
      forall c <- cs[..n] ensures !Concerns(c, cs[n].tenant, cs[n].key) {
        var j :| 0 <= j < n && cs[j] == c;
        assert (cs[j].tenant, cs[j].key) != (cs[n].tenant, cs[n].key);
      }
      NoStates(cs[..n], cs[n].tenant, cs[n].key);
    } else {
      OneState(cs[..n], i);
      assert (cs[i].tenant, cs[i].key) != (cs[n].tenant, cs[n].key);
    }
  }

  /** What a sweep publishes of a row that is due, and records. */
  lemma SweepPublishes(d: Desk, n: Desk, o: Order, cs: seq<Check>, kind: Kind, x: string)
    requires KeyedDesk(d) && Sweeps(d, n, o, cs) && Due(d, o, kind, x).Some? && Due(d, o, kind, x).value.upsert
    ensures var c, key := Due(d, o, kind, x).value, Key(kind, x);
      && Recorded(n.board, o.tenant, key) == Some(c.state)
      && SentFor(n.board.sent, o.tenant, key)
         == AddIf(SentFor(d.board.sent, o.tenant, key),
                  News(Recorded(d.board, o.tenant, key), Finding(c.state, c.read)), c.state)
  {
    var c, key := Due(d, o, kind, x).value, Key(kind, x);
    DueIsOfRow(d, o, kind, x);
    assert IsDue(d, o, c);
    var i :| 0 <= i < |cs| && cs[i] == c;
    hide Due, Key;
    OneState(cs, i);
    PublishesTheChanges(d.board, cs, o.tenant, key);
    var before := Recorded(d.board, o.tenant, key);
    hide EvaluateAll, SentFor, StatesOf;
    var f := Finding(c.state, c.read);
    assert Changes(before, [f]) == AddIf([], News(before, f), c.state) by {
      ChangesMore(before, [], f);
      assert [] + [f] == [f];
    }
  }

  // ---- in terms of the rows, the clock and the windows

  /** How a row that ends at some time stands: "expired", "soon" or "ok". */
  predicate StandsAt(end: Time, now: Time, window: Time, state: string) {
    || (state == "expired" && end < now)
    || (state == "soon" && now <= end <= now + window)
    || (state == "ok" && now <= end && now + window < end)
  }

  /** After a sweep a state is on record, and it was published exactly when it is not "ok" and is
      not the one that could be read before. */
  ghost predicate Noted(d: Desk, n: Desk, o: Order, key: string, state: string) {
    && Recorded(n.board, o.tenant, key) == Some(state)
    && SentFor(n.board.sent, o.tenant, key) == SentFor(d.board.sent, o.tenant, key) +
       if state != "ok" && !(o.gets(key) && Recorded(d.board, o.tenant, key) == Some(state)) then [state] else []
  }

  lemma DatedNoted(d: Desk, n: Desk, o: Order, cs: seq<Check>, kind: Kind, x: string) returns (state: string)
    requires KeyedDesk(d) && Sweeps(d, n, o, cs) && Due(d, o, kind, x).Some? && o.writes(Key(kind, x))
    requires !kind.LowStock?
    ensures var r := TableOf(d, kind)[x];
      StandsAt(r.body.end.value, o.now, Window(o.windows, kind), state) && Noted(d, n, o, Key(kind, x), state)
  {
    state := Due(d, o, kind, x).value.state;
    SweepPublishes(d, n, o, cs, kind, x);
    hide Sweeps, SentFor, Recorded;
  }

  /** A license that has an end and is not suspended. */
  lemma LicenseNoted(d: Desk, n: Desk, o: Order, cs: seq<Check>, x: string) returns (state: string)
    requires KeyedDesk(d) && Sweeps(d, n, o, cs) && o.lists(Licensed) && o.writes("license:" + x)
    requires x in d.licenses && d.licenses[x].tenant == o.tenant
    requires d.licenses[x].body.end.Some? && d.licenses[x].body.status != "suspended"
    ensures StandsAt(d.licenses[x].body.end.value, o.now, o.windows.1, state) && Noted(d, n, o, "license:" + x, state)
  {
    hide Sweeps, Noted;
    state := DatedNoted(d, n, o, cs, Licensed, x);
  }

  /** An insurance policy that has an end and is not cancelled. */
  lemma PolicyNoted(d: Desk, n: Desk, o: Order, cs: seq<Check>, x: string) returns (state: string)
    requires KeyedDesk(d) && Sweeps(d, n, o, cs) && o.lists(Insured) && o.writes("insurance:" + x)
    requires x in d.policies && d.policies[x].tenant == o.tenant
    requires d.policies[x].body.end.Some? && d.policies[x].body.status != "cancelled"
    ensures StandsAt(d.policies[x].body.end.value, o.now, o.windows.2, state) && Noted(d, n, o, "insurance:" + x, state)
  {
    hide Sweeps, Noted;
    state := DatedNoted(d, n, o, cs, Insured, x);
  }

  /** An asset that has a warranty and is not archived. */
  lemma WarrantyNoted(d: Desk, n: Desk, o: Order, cs: seq<Check>, x: string) returns (state: string)
    requires KeyedDesk(d) && Sweeps(d, n, o, cs) && o.lists(Warranted) && o.writes("warranty:" + x)
    requires x in d.assets && d.assets[x].tenant == o.tenant
    requires d.assets[x].body.end.Some? && d.assets[x].body.status != "archived"
    ensures StandsAt(d.assets[x].body.end.value, o.now, o.windows.0, state) && Noted(d, n, o, "warranty:" + x, state)
  {
    hide Sweeps, Noted;
    state := DatedNoted(d, n, o, cs, Warranted, x);
  }

  /** A consumable with a minimum: low, with the amount, exactly when the amount is at most the minimum. */
  lemma StockNoted(d: Desk, n: Desk, o: Order, cs: seq<Check>, x: string)
    requires KeyedDesk(d) && Sweeps(d, n, o, cs) && o.lists(LowStock) && o.writes("low_stock:" + x)
    requires x in d.consumables && d.consumables[x].tenant == o.tenant && d.consumables[x].body.min > 0
    ensures var c := d.consumables[x].body;
      Noted(d, n, o, "low_stock:" + x, if c.amount <= c.min then "low:" + StreamIds.FormatInt(c.amount) else "ok")
  {
    SweepPublishes(d, n, o, cs, LowStock, x);
    var c := d.consumables[x].body;
    assert LOW + ":" + StreamIds.FormatInt(c.amount) == "low:" + StreamIds.FormatInt(c.amount);
    hide Sweeps, SentFor, Recorded;
  }

  /** Nothing is recorded or published under a key. */
  ghost predicate Unnoted(d: Desk, n: Desk, tenant: string, key: string) {
    && Recorded(n.board, tenant, key) == Recorded(d.board, tenant, key)
    && SentFor(n.board.sent, tenant, key) == SentFor(d.board.sent, tenant, key)
  }

  lemma UncheckedIsUnnoted(d: Desk, n: Desk, o: Order, cs: seq<Check>, tenant: string, key: string)
    requires Sweeps(d, n, o, cs) && forall c <- cs :: c.tenant != tenant || c.key != key
    ensures Unnoted(d, n, tenant, key)
  {
    NoStates(cs, tenant, key);
    PublishesTheChanges(d.board, cs, tenant, key);
    hide EvaluateAll, SentFor, Recorded;
  }

  lemma NotDueIsUnnoted(d: Desk, n: Desk, o: Order, cs: seq<Check>, kind: Kind, x: string)
    requires KeyedDesk(d) && Sweeps(d, n, o, cs) && Due(d, o, kind, x).None?
    ensures Unnoted(d, n, o.tenant, Key(kind, x))
  {
    forall c <- cs ensures c.key != Key(kind, x) {
      assert IsDue(d, o, c);
      var k: Kind, y: string :| Due(d, o, k, y) == Some(c);
      DueIsOfRow(d, o, k, y);
      hide Key, Due;
      if c.key == Key(kind, x) { KeysApart(k, kind, y, x); }
    }
    hide Due, KeyedDesk, Sweeps, Key, Unnoted;
    UncheckedIsUnnoted(d, n, o, cs, o.tenant, Key(kind, x));
  }

  /** A row that is not the tenant's, has no end (or minimum), or is out of use is not noted; nor is
      anything of another tenant. */
  lemma OthersUnnoted(d: Desk, n: Desk, o: Order, cs: seq<Check>, x: string)
    requires KeyedDesk(d) && Sweeps(d, n, o, cs)
    ensures !(Has(d.licenses, o.tenant, x) && d.licenses[x].body.end.Some? && d.licenses[x].body.status != "suspended")
      ==> Unnoted(d, n, o.tenant, "license:" + x)
    ensures !(Has(d.policies, o.tenant, x) && d.policies[x].body.end.Some? && d.policies[x].body.status != "cancelled")
      ==> Unnoted(d, n, o.tenant, "insurance:" + x)
    ensures !(Has(d.assets, o.tenant, x) && d.assets[x].body.end.Some? && d.assets[x].body.status != "archived")
      ==> Unnoted(d, n, o.tenant, "warranty:" + x)
    ensures !(Has(d.consumables, o.tenant, x) && d.consumables[x].body.min > 0)
      ==> Unnoted(d, n, o.tenant, "low_stock:" + x)
    ensures forall tenant, key | tenant != o.tenant :: Unnoted(d, n, tenant, key)
  {
    forall tenant, key | tenant != o.tenant ensures Unnoted(d, n, tenant, key) {
      forall c <- cs ensures c.tenant == o.tenant { CheckTenant(d, o, cs, c); }
      hide *;
      UncheckedIsUnnoted(d, n, o, cs, tenant, key);
    }
    hide Sweeps, Unnoted, KeyedDesk, CheckOf, StockCheck;
    if Due(d, o, Licensed, x).None? { NotDueIsUnnoted(d, n, o, cs, Licensed, x); }
    if Due(d, o, Insured, x).None? { NotDueIsUnnoted(d, n, o, cs, Insured, x); }
    if Due(d, o, Warranted, x).None? { NotDueIsUnnoted(d, n, o, cs, Warranted, x); }
    if Due(d, o, LowStock, x).None? { NotDueIsUnnoted(d, n, o, cs, LowStock, x); }
  }

  /** A license has lapsed and is marked: its end is past, it is neither suspended nor marked yet,
      and the update succeeds; no other license changes. Policies likewise. */
  lemma LapsesExactly(d: Desk, n: Desk, o: Order, cs: seq<Check>, x: string)
    requires Sweeps(d, n, o, cs)
    ensures n.licenses.Keys == d.licenses.Keys && n.policies.Keys == d.policies.Keys
    ensures n.assets == d.assets && n.consumables == d.consumables
    ensures x in d.licenses ==>
      var r := d.licenses[x];
      n.licenses[x] ==
        if o.lists(Licensed) && r.tenant == o.tenant && r.body.end.Some? && r.body.end.value < o.now
           && r.body.status != "suspended" && r.body.status != "expired" && o.updates(r.id)
        then r.(updated := o.now, body := r.body.(status := "expired")) else r
    ensures x in d.policies ==>
      var r := d.policies[x];
      n.policies[x] ==
        if o.lists(Insured) && r.tenant == o.tenant && r.body.end.Some? && r.body.end.value < o.now
           && r.body.status != "cancelled" && r.body.status != "expired" && o.updates(r.id)
        then r.(updated := o.now, body := r.body.(status := "expired")) else r
  {
    hide ChecksAll, EvaluateAll;
  }

  // ---- what an unreadable record does, and a condition that returns

  /** The bound needs the reads: a row to alert whose record cannot be read, but can be written,
      is alerted in that sweep even if the record says that it was alerted before. */
  lemma UnreadRepeats(d: Desk, n: Desk, o: Order, cs: seq<Check>, kind: Kind, x: string)
    requires KeyedDesk(d) && Sweeps(d, n, o, cs) && Due(d, o, kind, x).Some? && !Quiet(Due(d, o, kind, x).value)
    ensures SentFor(n.board.sent, o.tenant, Key(kind, x)) ==
      SentFor(d.board.sent, o.tenant, Key(kind, x)) + [Due(d, o, kind, x).value.state]
  {
    SweepPublishes(d, n, o, cs, kind, x);
  }

  /** A sweep after which a record is "ok", as it was before, published nothing of it. */
  lemma FineIsSilent(d: Desk, n: Desk, o: Order, cs: seq<Check>, tenant: string, key: string)
    requires Sweeps(d, n, o, cs) && Recorded(d.board, tenant, key) == Recorded(n.board, tenant, key) == Some(FINE)
    ensures SentFor(n.board.sent, tenant, key) == SentFor(d.board.sent, tenant, key)
  {
    PublishesTheChanges(d.board, cs, tenant, key);
    hide EvaluateAll, SentFor, Recorded;
    if i :| 0 <= i < |cs| && Concerns(cs[i], tenant, key) {
      OneState(cs, i);
    } else {
      NoStates(cs, tenant, key);
    }
  }

  ghost predicate StaysFine(ds: seq<Desk>, tenant: string, key: string) {
    forall i | 0 <= i < |ds| :: Recorded(ds[i].board, tenant, key) == Some(FINE)
  }

  lemma {:induction false} FineRunIsSilent(ds: seq<Desk>, es: seq<Event>, tenant: string, key: string)
    requires IsRun(ds, es) && StaysFine(ds, tenant, key)
    ensures SentFor(ds[|es|].board.sent, tenant, key) == SentFor(ds[0].board.sent, tenant, key)
  {
    if es != [] {
      var n := |es| - 1;
      FineRunIsSilent(ds[..n + 1], es[..n], tenant, key);
      assert Happens(ds[n], ds[n + 1], es[n]);
      if es[n].Round? { FineIsSilent(ds[n], ds[n + 1], es[n].order, es[n].checks, tenant, key); }
    }
  }

  /** A row found in order, and recorded so, that is due in another state after any run of sweeps
      and edits in which the record stayed "ok": it is alerted exactly once from then on,
      whatever was alerted before. */
  lemma ComesBack(d: Desk, o: Order, cs: seq<Check>, ds: seq<Desk>, es: seq<Event>, m: Desk, p: Order,
                  more: seq<Check>, kind: Kind, x: string)
    requires IsRun(ds, es) && StaysFine(ds, o.tenant, Key(kind, x)) && p.tenant == o.tenant
    requires KeyedDesk(d) && Sweeps(d, ds[0], o, cs) && Due(d, o, kind, x).Some?
    requires Due(d, o, kind, x).value.upsert && Due(d, o, kind, x).value.state == FINE
    requires var e := ds[|es|]; KeyedDesk(e) && Sweeps(e, m, p, more) && Due(e, p, kind, x).Some?
    requires var c := Due(ds[|es|], p, kind, x).value; c.upsert && c.state != FINE
    ensures var key := Key(kind, x);
      && SentFor(ds[0].board.sent, p.tenant, key) == SentFor(d.board.sent, p.tenant, key)
      && SentFor(m.board.sent, p.tenant, key) ==
         SentFor(d.board.sent, p.tenant, key) + [Due(ds[|es|], p, kind, x).value.state]
  {
    FineRunIsSilent(ds, es, o.tenant, Key(kind, x));
    assert Recorded(ds[|es|].board, o.tenant, Key(kind, x)) == Some(FINE);
    hide Due, Sweeps, KeyedDesk, Key, IsRun, StaysFine;
    SweepPublishes(d, ds[0], o, cs, kind, x);
    SweepPublishes(ds[|es|], m, p, more, kind, x);
  }
}
