/** The backup document, and the checks made before anything is written. */
module Archive {
  import opened Store

  const SCHEMA_VERSION := 1
  const MAX_ROWS := 200000

  datatype Backup = Backup(
    version: int, tenant: string,
    suppliers: seq<Row<Supplier>>, locations: seq<Row<Location>>, categories: seq<Row<Category>>,
    assets: seq<Row<Asset>>, assignments: seq<Row<Assignment>>, consumables: seq<Row<Consumable>>,
    licenses: seq<Row<License>>, policies: seq<Row<Policy>>, links: seq<Row<Link>>, documents: seq<Row<Document>>)

  /** Assets, suppliers, locations, categories and policies must carry an id and
      their unique column; nothing is asked of the other collections. */
  predicate Valid(b: Backup) {
    && b.version == SCHEMA_VERSION
    && |b.suppliers| <= MAX_ROWS && |b.locations| <= MAX_ROWS && |b.categories| <= MAX_ROWS
    && |b.assets| <= MAX_ROWS && |b.assignments| <= MAX_ROWS && |b.consumables| <= MAX_ROWS
    && |b.licenses| <= MAX_ROWS && |b.policies| <= MAX_ROWS && |b.links| <= MAX_ROWS && |b.documents| <= MAX_ROWS
    && (forall r <- b.assets :: r.id != "" && r.body.tag != "")
    && (forall r <- b.suppliers :: r.id != "" && r.body.name != "")
    && (forall r <- b.locations :: r.id != "" && r.body.name != "")
    && (forall r <- b.categories :: r.id != "" && r.body.name != "")
    && (forall r <- b.policies :: r.id != "" && r.body.number != "")
  }
}
