/** middleware/tenantIsolation.js: which requests get a tenant context, the
    resource-to-table ownership checks, and the tenant-filtered helpers. */
module TenantIsolation {
  import opened Common
  import opened Records

  // ------------------------------------------------------------ tenantIsolation

  const PublicRoutes: seq<string> := ["/api/auth/login", "/api/auth/register", "/api/auth/google", "/api/auth/me"]

  predicate IsPublicRoute(path: string) {
    exists i :: 0 <= i < |PublicRoutes| && StartsWith(path, PublicRoutes[i])
  }

  /** Ids are text (the tables' UUID keys), as they travel in request paths, bodies and
      PostgREST filters. */
  type Id = string

  /** req.tenant as the middleware leaves it. */
  datatype Tenant = Tenant(id: Id, userId: Id)

  /** The middleware always calls next; it only decides whether req.tenant is set, from
      req.user's id (None when there is no req.user). */
  function TenantContext(path: string, user: Option<Id>): (r: Option<Tenant>)
    ensures r.Some? <==> !IsPublicRoute(path) && user.Some? && user.value != ""
    ensures r.Some? ==> r.value.id == r.value.userId == user.value
  {
    if IsPublicRoute(path) then None
    else if user.Some? && user.value != "" then Some(Tenant(user.value, user.value))
    else None
  }

  /** The public test is a prefix test: `/api/auth/me` also lets `/api/auth/meetings`
      through without a tenant. */
  lemma PublicByPrefix(path: string, user: Option<Id>, rest: string)
    ensures TenantContext("/api/auth/me" + rest, user).None?
    ensures TenantContext("/api/auth/login" + rest, user).None?
  {
    assert StartsWith("/api/auth/me" + rest, PublicRoutes[3]) by {
      assert ("/api/auth/me" + rest)[..|PublicRoutes[3]|] == PublicRoutes[3];
    }
    assert StartsWith("/api/auth/login" + rest, PublicRoutes[0]) by {
      assert ("/api/auth/login" + rest)[..|PublicRoutes[0]|] == PublicRoutes[0];
    }
  }

  // ------------------------------------------------------------ ownership

  /** The column a table's rows are owned by. */
  datatype OwnerColumn = RealtorIdColumn | IdColumn

  /** A row as the ownership queries see it: its id and its realtor_id. */
  datatype OwnedRow = OwnedRow(id: Id, realtorId: Id)

  /** The tables by name, and the tables whose queries answer with an error. */
  datatype Db = Db(tables: map<string, seq<OwnedRow>>, down: set<string>)

  function RowsOf(db: Db, table: string): seq<OwnedRow> {
    if table in db.tables then db.tables[table] else []
  }

  function OwnerOf(r: OwnedRow, column: OwnerColumn): Id {
    if column == IdColumn then r.id else r.realtorId
  }

  /** `select('id').eq('id', id).eq(ownerColumn, userId).single()` finds a row. */
  predicate OwnsRow(db: Db, table: string, column: OwnerColumn, id: Id, userId: Id) {
    && table !in db.down
    && exists i :: 0 <= i < |RowsOf(db, table)| && RowsOf(db, table)[i].id == id && OwnerOf(RowsOf(db, table)[i], column) == userId
  }

  /** validateTenantOwnership's switch: the table and owner column of a resource type. */
  function OwnershipTable(resourceType: string): Option<(string, OwnerColumn)> {
    if resourceType == "contact" then Some(("contacts", RealtorIdColumn))
    else if resourceType == "property" then Some(("properties", RealtorIdColumn))
    else if resourceType == "lease" then Some(("leases", RealtorIdColumn))
    else if resourceType == "user" then Some(("users", IdColumn))
    else None
  }

  /** `charAt(0).toUpperCase() + slice(1)`, for ASCII letters. */
  function Capitalize(s: string): (r: string)
    ensures |r| == |s| && (s != [] ==> r[1..] == s[1..])
  {
    if s == [] then []
    else if 'a' <= s[0] <= 'z' then [(s[0] as int - 32) as char] + s[1..]
    else s
  }

  /** What a middleware does with the request. */
  datatype Gate = Next | BadRequest(message: string) | NotFound(message: string)

  const InvalidResourceType := "Invalid resource type for tenant validation"

  function DeniedMessage(resourceType: string): string {
    Capitalize(resourceType) + DeniedSuffix
  }

  const DeniedSuffix := " not found or access denied"

  /** validateTenantOwnership(resourceType) for a request with :id = resourceId (the
      empty text when the route has no id). */
  function CheckOwnership(db: Db, resourceType: string, resourceId: Id, userId: Id): Gate {
    if resourceId == "" then Next
    else
      var t := OwnershipTable(resourceType);
      if t.None? then BadRequest(InvalidResourceType)
      else if OwnsRow(db, t.value.0, t.value.1, resourceId, userId) then Next
      else NotFound(DeniedMessage(resourceType))
  }

  /** Without an id nothing is checked, not even the resource type; an unknown type is a
      400; a known one passes iff the caller owns the row, and otherwise answers 404
      with the capitalised type name. */
  lemma OwnershipCases(db: Db, resourceType: string, resourceId: Id, userId: Id)
    ensures resourceId == "" ==> CheckOwnership(db, resourceType, resourceId, userId) == Next
    ensures resourceId != "" && OwnershipTable(resourceType).None? ==>
      CheckOwnership(db, resourceType, resourceId, userId) == BadRequest(InvalidResourceType)
    ensures resourceId != "" && OwnershipTable(resourceType).Some? ==>
      var (table, column) := OwnershipTable(resourceType).value;
      CheckOwnership(db, resourceType, resourceId, userId) ==
        if OwnsRow(db, table, column, resourceId, userId) then Next else NotFound(DeniedMessage(resourceType))
  {
  }

  /** The four resource types and their tables; users are owned by their own id. */
  lemma OwnershipMapping()
    ensures OwnershipTable("contact") == Some(("contacts", RealtorIdColumn))
    ensures OwnershipTable("property") == Some(("properties", RealtorIdColumn))
    ensures OwnershipTable("lease") == Some(("leases", RealtorIdColumn))
    ensures OwnershipTable("user") == Some(("users", IdColumn))
  {
    assert "property" != "contact" by { assert "property"[0] != "contact"[0]; }
    assert "lease" != "contact" by { assert "lease"[0] != "contact"[0]; }
    assert "lease" != "property" by { assert "lease"[0] != "property"[0]; }
    assert "user" != "contact" && "user" != "property" && "user" != "lease" by {
      assert "user"[0] != "contact"[0] && "user"[0] != "property"[0] && "user"[0] != "lease"[0];
    }
  }

  /** The 404 message names each resource type with its first letter capitalised. */
  lemma DeniedMessages()
    ensures DeniedMessage("contact") == "Contact" + DeniedSuffix
    ensures DeniedMessage("property") == "Property" + DeniedSuffix
    ensures DeniedMessage("lease") == "Lease" + DeniedSuffix
    ensures DeniedMessage("user") == "User" + DeniedSuffix
  {
    CapitalizeLower("contact", "Contact");
    CapitalizeLower("property", "Property");
    CapitalizeLower("lease", "Lease");
    CapitalizeLower("user", "User");
  }

  /** A word whose first letter is lower case capitalises to the same word with that
      letter upper-cased. */
  lemma CapitalizeLower(s: string, t: string)
    requires s != [] && 'a' <= s[0] <= 'z'
    requires |t| == |s| && t[0] as int == s[0] as int - 32 && t[1..] == s[1..]
    ensures Capitalize(s) == t
  {
    assert t == [t[0]] + t[1..];
  }

  // ------------------------------------------------------------ relationships

  /** One pushed validation: the body field, its resource type, its value, and whether
      the caller owns the referenced row. */
  datatype Check = Check(field: string, resourceType: string, resourceId: JsonValue, valid: bool)

  /** The relationship switch: 'user' is not a relationship type. */
  function RelationshipTable(resourceType: string): Option<string> {
    if resourceType == "contact" then Some("contacts")
    else if resourceType == "property" then Some("properties")
    else if resourceType == "lease" then Some("leases")
    else None
  }

  /** The text `.eq('id', value)` filters on: a string as it is, a number or a boolean
      as its decimal or literal text. An array or object gives no id text, so it matches
      no row. */
  function BodyId(v: JsonValue): Option<Id> {
    match v
    case Str(s) => Some(s)
    case Num(n) => Some(IntText(n))
    case Bool(b) => Some(if b then "true" else "false")
    case _ => None
  }

  predicate Skipped(body: map<string, JsonValue>, rel: (string, string)) {
    rel.0 !in body || Falsy(body[rel.0]) || RelationshipTable(rel.1).None?
  }

  function CheckOf(db: Db, body: map<string, JsonValue>, rel: (string, string), userId: Id): Check
    requires !Skipped(body, rel)
  {
    var id := BodyId(body[rel.0]);
    var table := RelationshipTable(rel.1).value;
    Check(rel.0, rel.1, body[rel.0], id.Some? && OwnsRow(db, table, RealtorIdColumn, id.value, userId))
  }

  /** The checks pushed for the first relationships. */
  function Checks(db: Db, body: map<string, JsonValue>, rels: seq<(string, string)>, userId: Id): seq<Check> {
    if rels == [] then []
    else
      var last := rels[|rels| - 1];
      Checks(db, body, rels[..|rels| - 1], userId) + (if Skipped(body, last) then [] else [CheckOf(db, body, last, userId)])
  }

  predicate Invalid(c: Check) { !c.valid }

  function FieldLabel(c: Check): string {
    c.field + " (" + c.resourceType + ")"
  }

  /** The answer: 400 naming the invalid relationships, or next. */
  datatype RelationsGate = RelationsOk | RelationsInvalid(message: string, details: seq<Check>)

  function RelationsGateOf(checks: seq<Check>): RelationsGate {
    var bad := Filter(checks, Invalid);
    if checks == [] || bad == [] then RelationsOk
    else RelationsInvalid("Invalid tenant relationships for fields: " + Join(Map(bad, FieldLabel), ", "), bad)
  }

  /** The request passes iff every checked reference is owned; otherwise the details
      list exactly the invalid checks, in body order. */
  lemma RelationsGateCorrect(checks: seq<Check>)
    ensures RelationsGateOf(checks).RelationsOk? <==> forall i :: 0 <= i < |checks| ==> checks[i].valid
    ensures RelationsGateOf(checks).RelationsInvalid? ==>
      forall c :: c in RelationsGateOf(checks).details <==> c in checks && !c.valid
  {
    var bad := Filter(checks, Invalid);
    CountZero(checks, Invalid);
    FilterCount(checks, Invalid);
    forall c | c in checks && !c.valid ensures c in bad {
      FilterComplete(checks, Invalid, c);
    }
  }

  /** A checked field was present, truthy and of a relationship type; one check per such
      field, in order. */
  lemma {:induction false} ChecksCover(db: Db, body: map<string, JsonValue>, rels: seq<(string, string)>, userId: Id)
    ensures |Checks(db, body, rels, userId)| == |rels| - Count(rels, (r: (string, string)) => Skipped(body, r))
    ensures forall c :: c in Checks(db, body, rels, userId) ==>
      exists i :: 0 <= i < |rels| && !Skipped(body, rels[i]) && c == CheckOf(db, body, rels[i], userId)
  {
    if rels != [] {
      var init := rels[..|rels| - 1];
      ChecksCover(db, body, init, userId);
      forall c | c in Checks(db, body, rels, userId)
        ensures exists i :: 0 <= i < |rels| && !Skipped(body, rels[i]) && c == CheckOf(db, body, rels[i], userId)
      {
        if c in Checks(db, body, init, userId) {
          var i :| 0 <= i < |init| && !Skipped(body, init[i]) && c == CheckOf(db, body, init[i], userId);
          assert rels[i] == init[i];
        } else {
          assert c == CheckOf(db, body, rels[|rels| - 1], userId);
        }
      }
    }
  }

  /** A single reference given as a non-empty text id passes exactly when the caller
      owns that row of the referenced table. */
  lemma TextIdReference(db: Db, field: string, resourceType: string, id: Id, userId: Id)
    requires id != ""
    requires RelationshipTable(resourceType).Some?
    ensures var checks := Checks(db, map[field := Str(id)], [(field, resourceType)], userId);
      && |checks| == 1 && checks[0].resourceId == Str(id)
      && (RelationsGateOf(checks).RelationsOk? <==> OwnsRow(db, RelationshipTable(resourceType).value, RealtorIdColumn, id, userId))
  {
    var body := map[field := Str(id)];
    var rel := (field, resourceType);
    assert !Skipped(body, rel) by {
      assert body[rel.0] == Str(id);
    }
    var c := CheckOf(db, body, rel, userId);
    assert c.valid <==> OwnsRow(db, RelationshipTable(resourceType).value, RealtorIdColumn, id, userId) by {
      assert BodyId(body[rel.0]) == Some(id);
    }
    SingleCheck(db, body, rel, userId);
    SingleGate(c);
  }

  lemma SingleCheck(db: Db, body: map<string, JsonValue>, rel: (string, string), userId: Id)
    requires !Skipped(body, rel)
    ensures Checks(db, body, [rel], userId) == [CheckOf(db, body, rel, userId)]
  {
    assert [rel][..0] == [];
  }

  lemma SingleGate(c: Check)
    ensures RelationsGateOf([c]).RelationsOk? <==> c.valid
  {
    assert Filter([c], Invalid) == (if c.valid then [] else [c]);
  }

  /** validateTenantRelationships(relationships) over the request body. */
  method ValidateRelationships(db: Db, body: map<string, JsonValue>, rels: seq<(string, string)>, userId: Id)
    returns (gate: RelationsGate)
    ensures gate == RelationsGateOf(Checks(db, body, rels, userId))
  {
    var checks: seq<Check> := [];
    for i := 0 to |rels|
      invariant checks == Checks(db, body, rels[..i], userId)
    {
      assert rels[..i + 1][..i] == rels[..i];
      var (field, resourceType) := rels[i];
      if field !in body || Falsy(body[field]) {
        continue;
      }
      var table := RelationshipTable(resourceType);
      if table.None? {
        continue;
      }
      checks := checks + [CheckOf(db, body, rels[i], userId)];
    }
    assert rels[..|rels|] == rels;
    if |checks| == 0 {
      return RelationsOk;
    }
    gate := RelationsGateOf(checks);
  }

  // ------------------------------------------------------------ helpers

  /** getTenantQuery: users are filtered on id, every other table on realtor_id. */
  function TenantOwnerColumn(table: string): OwnerColumn {
    if table == "users" then IdColumn else RealtorIdColumn
  }

  function OwnedBy(column: OwnerColumn, userId: Id): OwnedRow -> bool {
    r => OwnerOf(r, column) == userId
  }

  /** The rows getTenantQuery selects. */
  function TenantQuery(db: Db, table: string, userId: Id): (r: seq<OwnedRow>)
    ensures forall x :: x in r <==> x in RowsOf(db, table) && OwnerOf(x, TenantOwnerColumn(table)) == userId
  {
    var rows := RowsOf(db, table);
    var keep := OwnedBy(TenantOwnerColumn(table), userId);
    assert forall x :: x in rows && keep(x) ==> x in Filter(rows, keep) by {
      forall x | x in rows && keep(x) ensures x in Filter(rows, keep) {
        FilterComplete(rows, keep, x);
      }
    }
    Filter(rows, keep)
  }

  /** The answer of one count query: a count (null when absent) or an error. */
  datatype CountAnswer = Counted(count: Option<nat>) | CountFailed

  datatype TenantStats = TenantStats(totalContacts: nat, totalProperties: nat, totalLeases: nat, activeLeases: nat, expiringLeases: nat)

  function CountOr0(a: CountAnswer): nat {
    if a.Counted? && a.count.Some? then a.count.value else 0
  }

  /** getTenantStats: any failed count gives all zeros; a missing count reads as 0. */
  function GetTenantStats(contacts: CountAnswer, properties: CountAnswer, leases: CountAnswer,
                          active: CountAnswer, expiring: CountAnswer): (r: TenantStats)
    ensures (contacts.CountFailed? || properties.CountFailed? || leases.CountFailed? || active.CountFailed? || expiring.CountFailed?)
      ==> r == TenantStats(0, 0, 0, 0, 0)
    ensures contacts.Counted? && properties.Counted? && leases.Counted? && active.Counted? && expiring.Counted? ==>
      r == TenantStats(CountOr0(contacts), CountOr0(properties), CountOr0(leases), CountOr0(active), CountOr0(expiring))
  {
    if contacts.CountFailed? || properties.CountFailed? || leases.CountFailed? || active.CountFailed? || expiring.CountFailed? then
      TenantStats(0, 0, 0, 0, 0)
    else
      TenantStats(CountOr0(contacts), CountOr0(properties), CountOr0(leases), CountOr0(active), CountOr0(expiring))
  }
}
