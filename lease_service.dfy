/** services/leaseService.js: how a lease read picks its primary tenant and landlord,
    how `create` fills in defaults, writes the join rows and undoes itself on failure,
    how `update` copies only the supplied fields, and the counts of `getStats`. */
module LeaseService {
  import opened Common
  import opened Records

  // ------------------------------------------------------------ relations

  /** A row of get_lease_tenants / get_lease_landlords: the party and its is_primary flag. */
  datatype Party = Party(id: nat, isPrimary: bool)

  /** `list.find(p => p.is_primary)`. */
  function FirstPrimary(ps: seq<Party>): Option<Party> {
    if ps == [] then None
    else if ps[0].isPrimary then Some(ps[0])
    else FirstPrimary(ps[1..])
  }

  /** The find returns the earliest flagged party, and nothing when none is flagged. */
  lemma {:induction false} FirstPrimaryFacts(ps: seq<Party>)
    ensures FirstPrimary(ps).None? <==> forall i :: 0 <= i < |ps| ==> !ps[i].isPrimary
    ensures FirstPrimary(ps).Some? ==>
      exists i :: (0 <= i < |ps| && ps[i] == FirstPrimary(ps).value
                   && ps[i].isPrimary && forall j :: 0 <= j < i ==> !ps[j].isPrimary)
  {
    if ps != [] && !ps[0].isPrimary {
      FirstPrimaryFacts(ps[1..]);
      if FirstPrimary(ps[1..]).Some? {
        var i :| 0 <= i < |ps[1..]| && ps[1..][i] == FirstPrimary(ps[1..]).value
          && ps[1..][i].isPrimary && forall j :: 0 <= j < i ==> !ps[1..][j].isPrimary;
        assert ps[i + 1] == FirstPrimary(ps).value;
        assert forall j :: 0 <= j < i + 1 ==> !ps[j].isPrimary by {
          forall j | 0 <= j < i + 1 ensures !ps[j].isPrimary {
            if j > 0 {
              assert ps[j] == ps[1..][j - 1];
            }
          }
        }
      } else {
        forall i | 0 <= i < |ps| ensures !ps[i].isPrimary {
          if i > 0 {
            assert ps[i] == ps[1..][i - 1];
          }
        }
      }
    } else if ps != [] {
      assert ps[0] == FirstPrimary(ps).value;
    }
  }

  /** `find(is_primary) || list[0] || null`: the lease's single tenant or landlord. */
  function Primary(ps: seq<Party>): (r: Option<Party>)
    ensures r.None? <==> ps == []
  {
    var f := FirstPrimary(ps);
    if f.Some? then f else if ps != [] then Some(ps[0]) else None
  }

  /** The first flagged party when there is one, else the first party. */
  lemma PrimaryChoice(ps: seq<Party>)
    ensures (exists i :: 0 <= i < |ps| && ps[i].isPrimary) ==>
      exists i :: (0 <= i < |ps| && Primary(ps) == Some(ps[i]) && ps[i].isPrimary
                   && forall j :: 0 <= j < i ==> !ps[j].isPrimary)
    ensures (forall i :: 0 <= i < |ps| ==> !ps[i].isPrimary) && ps != [] ==> Primary(ps) == Some(ps[0])
  {
    FirstPrimaryFacts(ps);
  }

  /** The data of one relation RPC: the rows, or an error answer. */
  datatype Fetched = Fetched(rows: seq<Party>) | FetchError

  function RowsOf(f: Fetched): seq<Party> {
    if f.Fetched? then f.rows else []
  }

  /** The relation fields added to a lease read. */
  datatype Relations = Relations(tenants: seq<Party>, landlords: seq<Party>, tenant: Option<Party>, landlord: Option<Party>)

  /** findById: a relation whose RPC fails is read as empty; the other is kept. */
  function FindByIdRelations(tenants: Fetched, landlords: Fetched): (r: Relations)
    ensures tenants.FetchError? ==> r.tenants == [] && r.tenant.None?
    ensures landlords.FetchError? ==> r.landlords == [] && r.landlord.None?
    ensures tenants.Fetched? ==> r.tenants == tenants.rows && r.tenant == Primary(tenants.rows)
    ensures landlords.Fetched? ==> r.landlords == landlords.rows && r.landlord == Primary(landlords.rows)
  {
    var ts := RowsOf(tenants);
    var ls := RowsOf(landlords);
    Relations(ts, ls, Primary(ts), Primary(ls))
  }

  /** findAll: an exception while fetching either relation empties both, without
      failing the lease list. */
  function FindAllRelations(tenants: Fetched, landlords: Fetched, threw: bool): (r: Relations)
    ensures threw ==> r == Relations([], [], None, None)
    ensures !threw ==> r == FindByIdRelations(tenants, landlords)
  {
    if threw then Relations([], [], None, None) else FindByIdRelations(tenants, landlords)
  }

  // ------------------------------------------------------------ create

  /** One entry of leaseData.tenants / leaseData.landlords: the party id, its isPrimary
      flag when given, and its rentResponsibility / ownershipPercentage when given. */
  datatype PartyInput = PartyInput(id: nat, isPrimary: Option<bool>, share: Option<int>)

  /** leaseData.tenants: an array, or anything that is not one. */
  datatype GivenList = NotArray | List(items: seq<PartyInput>)

  /** `Array.isArray(list) ? list : single ? [{id: single, isPrimary: true}] :
      singleId ? [...] : []`. */
  function Normalise(list: GivenList, single: Option<nat>, singleId: Option<nat>): seq<PartyInput> {
    if list.List? then list.items
    else if single.Some? then [PartyInput(single.value, Some(true), None)]
    else if singleId.Some? then [PartyInput(singleId.value, Some(true), None)]
    else []
  }

  /** An array is used as given; otherwise at most one party results, flagged primary,
      taken from the single field before the id field. */
  lemma NormaliseCases(list: GivenList, single: Option<nat>, singleId: Option<nat>)
    ensures list.List? ==> Normalise(list, single, singleId) == list.items
    ensures list.NotArray? ==> |Normalise(list, single, singleId)| <= 1
    ensures list.NotArray? ==> (Normalise(list, single, singleId) == [] <==> single.None? && singleId.None?)
    ensures list.NotArray? && Normalise(list, single, singleId) != [] ==>
      Normalise(list, single, singleId)[0].isPrimary == Some(true)
      && Normalise(list, single, singleId)[0].id == (if single.Some? then single.value else singleId.value)
  {
  }

  datatype TenantLink = TenantLink(leaseId: nat, tenantId: nat, isPrimary: bool, rentResponsibility: Option<int>)
  datatype LandlordLink = LandlordLink(leaseId: nat, landlordId: nat, isPrimary: bool, ownershipPercentage: Option<int>)

  /** `x !== undefined ? x : index === 0`. */
  function PrimaryFlag(p: PartyInput, index: nat): bool {
    if p.isPrimary.Some? then p.isPrimary.value else index == 0
  }

  /** `share || (index === 0 ? fallback : null)`: a zero share counts as absent. */
  function ShareOr(p: PartyInput, index: nat, fallback: int): Option<int> {
    if p.share.Some? && p.share.value != 0 then p.share
    else if index == 0 then Some(fallback)
    else None
  }

  const FullOwnership := 100

  function TenantLinks(leaseId: nat, ps: seq<PartyInput>, monthlyRent: int): (r: seq<TenantLink>)
    ensures |r| == |ps|
  {
    if ps == [] then []
    else
      var n := |ps| - 1;
      TenantLinks(leaseId, ps[..n], monthlyRent) + [TenantLink(leaseId, ps[n].id, PrimaryFlag(ps[n], n), ShareOr(ps[n], n, monthlyRent))]
  }

  function LandlordLinks(leaseId: nat, ps: seq<PartyInput>): (r: seq<LandlordLink>)
    ensures |r| == |ps|
  {
    if ps == [] then []
    else
      var n := |ps| - 1;
      LandlordLinks(leaseId, ps[..n]) + [LandlordLink(leaseId, ps[n].id, PrimaryFlag(ps[n], n), ShareOr(ps[n], n, FullOwnership))]
  }

  /** One join row per party, in order, for this lease: primary when flagged, or by
      default only the first; only the first defaults its rent share to the monthly rent. */
  lemma {:induction false} TenantLinksFacts(leaseId: nat, ps: seq<PartyInput>, monthlyRent: int)
    ensures var r := TenantLinks(leaseId, ps, monthlyRent);
      forall i :: 0 <= i < |ps| ==>
        && r[i].leaseId == leaseId && r[i].tenantId == ps[i].id
        && (r[i].isPrimary <==> (if ps[i].isPrimary.Some? then ps[i].isPrimary.value else i == 0))
        && r[i].rentResponsibility ==
             (if ps[i].share.Some? && ps[i].share.value != 0 then ps[i].share
              else if i == 0 then Some(monthlyRent) else None)
  {
    if ps != [] {
      var n := |ps| - 1;
      TenantLinksFacts(leaseId, ps[..n], monthlyRent);
    }
  }

  /** The same for landlords, whose first row defaults to full ownership. */
  lemma {:induction false} LandlordLinksFacts(leaseId: nat, ps: seq<PartyInput>)
    ensures var r := LandlordLinks(leaseId, ps);
      forall i :: 0 <= i < |ps| ==>
        && r[i].leaseId == leaseId && r[i].landlordId == ps[i].id
        && (r[i].isPrimary <==> (if ps[i].isPrimary.Some? then ps[i].isPrimary.value else i == 0))
        && r[i].ownershipPercentage ==
             (if ps[i].share.Some? && ps[i].share.value != 0 then ps[i].share
              else if i == 0 then Some(FullOwnership) else None)
  {
    if ps != [] {
      var n := |ps| - 1;
      LandlordLinksFacts(leaseId, ps[..n]);
    }
  }

  /** Read back as parties, join rows written from unflagged input make the first
      tenant the lease's primary one. */
  lemma UnflaggedFirstIsPrimary(leaseId: nat, ps: seq<PartyInput>, monthlyRent: int)
    requires ps != []
    requires forall i :: 0 <= i < |ps| ==> ps[i].isPrimary.None?
    ensures var r := TenantLinks(leaseId, ps, monthlyRent);
      Primary(Map(r, (t: TenantLink) => Party(t.tenantId, t.isPrimary))) == Some(Party(ps[0].id, true))
  {
    TenantLinksFacts(leaseId, ps, monthlyRent);
  }

  /** The fields of leaseData that `create` reads (documents, payments and reminders are
      copied through and not modelled). A falsy optional field is None. */
  datatype LeaseInput = LeaseInput(
    property: Option<nat>, propertyId: Option<nat>,
    tenants: GivenList, tenant: Option<nat>, tenantId: Option<nat>,
    landlords: GivenList, landlord: Option<nat>, landlordId: Option<nat>,
    startDate: int, endDate: int, monthlyRent: int,
    securityDeposit: Option<int>, leaseType: string, status: Option<LeaseStatus>,
    renewalOption: Option<bool>, autoRenewal: Option<bool>, noticeRequired: Option<int>)

  /** A row of the leases table. */
  datatype LeaseRow = LeaseRow(
    id: nat, propertyId: Option<nat>, tenantId: Option<nat>, landlordId: Option<nat>,
    startDate: int, endDate: int, monthlyRent: int, securityDeposit: int, leaseType: string,
    status: LeaseStatus, renewalOption: bool, autoRenewal: bool, noticeRequired: int, realtorId: nat)

  const NoticeRequiredDefault := 30

  /** `x || d` for a number: zero counts as absent. */
  function NumberOr(x: Option<int>, d: int): int {
    if x.Some? && x.value != 0 then x.value else d
  }

  /** The legacy tenant_id / landlord_id column: the first array entry's id, or the
      single field. */
  function LegacyId(list: GivenList, single: Option<nat>): Option<nat> {
    if list.List? then (if list.items != [] then Some(list.items[0].id) else None) else single
  }

  /** The row `create` inserts. */
  function NewLeaseRow(d: LeaseInput, id: nat, realtorId: nat): LeaseRow {
    LeaseRow(id, if d.property.Some? then d.property else d.propertyId,
             LegacyId(d.tenants, d.tenant), LegacyId(d.landlords, d.landlord),
             d.startDate, d.endDate, d.monthlyRent, NumberOr(d.securityDeposit, 0), d.leaseType,
             if d.status.Some? then d.status.value else Pending,
             d.renewalOption == Some(true), d.autoRenewal == Some(true),
             NumberOr(d.noticeRequired, NoticeRequiredDefault), realtorId)
  }

  /** The defaults: pending, no deposit, 30 days' notice, no renewal, no auto-renewal;
      a notice of 0 also becomes 30. The row belongs to the calling realtor. */
  lemma CreateDefaults(d: LeaseInput, id: nat, realtorId: nat)
    ensures var r := NewLeaseRow(d, id, realtorId);
      && r.realtorId == realtorId && r.id == id
      && (d.status.None? ==> r.status == Pending)
      && (d.securityDeposit.None? ==> r.securityDeposit == 0)
      && (d.noticeRequired.None? || d.noticeRequired == Some(0) ==> r.noticeRequired == NoticeRequiredDefault)
      && (d.renewalOption != Some(true) ==> !r.renewalOption)
      && (d.autoRenewal != Some(true) ==> !r.autoRenewal)
      && (d.status.Some? ==> r.status == d.status.value)
  {
  }

  /** The three tables `create` writes. */
  datatype Tables = Tables(leases: seq<LeaseRow>, tenantLinks: seq<TenantLink>, landlordLinks: seq<LandlordLink>)

  /** Which of the three inserts and of the two compensating deletes fail. */
  datatype CreateFaults = CreateFaults(leaseDown: bool, tenantsDown: bool, landlordsDown: bool,
                                       leaseDeleteDown: bool, tenantDeleteDown: bool)

  datatype CreateError = LeaseInsertFailed | TenantLinksFailed | LandlordLinksFailed

  predicate OtherLease(id: nat, l: LeaseRow) { l.id != id }
  predicate OtherTenantLink(id: nat, t: TenantLink) { t.leaseId != id }

  function NotLease(id: nat): LeaseRow -> bool { l => OtherLease(id, l) }
  function NotTenantLinkOf(id: nat): TenantLink -> bool { t => OtherTenantLink(id, t) }

  /** The lease delete of a rollback; a failing delete changes nothing. */
  function DropLease(w: Tables, down: bool, id: nat): Tables {
    if down then w else w.(leases := Filter(w.leases, NotLease(id)))
  }

  /** The lease_tenants delete of a rollback; a failing delete changes nothing. */
  function DropTenantLinks(w: Tables, down: bool, id: nat): Tables {
    if down then w else w.(tenantLinks := Filter(w.tenantLinks, NotTenantLinkOf(id)))
  }

  /** `create`: insert the lease, then its tenant rows, then its landlord rows. A failed
      tenant insert deletes the lease; a failed landlord insert deletes the lease's
      tenant rows and then the lease. The deletes' errors are never read, so the insert
      error is thrown whether or not they worked. */
  function CreateSpec(w: Tables, f: CreateFaults, d: LeaseInput, id: nat, realtorId: nat): (Tables, Result<LeaseRow, CreateError>) {
    var row := NewLeaseRow(d, id, realtorId);
    var ts := Normalise(d.tenants, d.tenant, d.tenantId);
    var ls := Normalise(d.landlords, d.landlord, d.landlordId);
    if f.leaseDown then (w, Err(LeaseInsertFailed))
    else
      var w1 := w.(leases := w.leases + [row]);
      if ts != [] && f.tenantsDown then
        (DropLease(w1, f.leaseDeleteDown, id), Err(TenantLinksFailed))
      else
        var w2 := if ts != [] then w1.(tenantLinks := w1.tenantLinks + TenantLinks(id, ts, d.monthlyRent)) else w1;
        if ls != [] && f.landlordsDown then
          var w3 := DropTenantLinks(w2, f.tenantDeleteDown, id);
          (DropLease(w3, f.leaseDeleteDown, id), Err(LandlordLinksFailed))
        else
          var w4 := if ls != [] then w2.(landlordLinks := w2.landlordLinks + LandlordLinks(id, ls)) else w2;
          (w4, Ok(row))
  }

  /** The id the database hands out is not in use yet. */
  predicate FreshId(w: Tables, id: nat) {
    && (forall i :: 0 <= i < |w.leases| ==> w.leases[i].id != id)
    && (forall i :: 0 <= i < |w.tenantLinks| ==> w.tenantLinks[i].leaseId != id)
  }

  lemma DropAppended<T>(old_: seq<T>, added: seq<T>, p: T -> bool)
    requires forall i :: 0 <= i < |old_| ==> p(old_[i])
    requires forall i :: 0 <= i < |added| ==> !p(added[i])
    ensures Filter(old_ + added, p) == old_
  {
    FilterAppend(old_, added, p);
    FilterAll(old_, p);
    FilterNone(added, p);
  }

  /** With a fresh id, every failed create leaves the tables as they were; a
      successful one adds the lease row and exactly its join rows. */
  lemma LeaseDropped(w: Tables, row: LeaseRow, id: nat)
    requires FreshId(w, id) && row.id == id
    ensures Filter(w.leases + [row], NotLease(id)) == w.leases
  {
    assert forall i :: 0 <= i < |w.leases| ==> NotLease(id)(w.leases[i]);
    DropAppended(w.leases, [row], NotLease(id));
  }

  lemma TenantLinksDropped(w: Tables, id: nat, ts: seq<PartyInput>, rent: int)
    requires FreshId(w, id)
    ensures Filter(w.tenantLinks + (if ts != [] then TenantLinks(id, ts, rent) else []), NotTenantLinkOf(id)) == w.tenantLinks
  {
    assert forall i :: 0 <= i < |w.tenantLinks| ==> NotTenantLinkOf(id)(w.tenantLinks[i]);
    TenantLinksFacts(id, ts, rent);
    DropAppended(w.tenantLinks, if ts != [] then TenantLinks(id, ts, rent) else [], NotTenantLinkOf(id));
  }

  /** With a fresh id and working deletes, every failed create leaves the tables as
      they were. */
  lemma CreateRollsBack(w: Tables, f: CreateFaults, d: LeaseInput, id: nat, realtorId: nat)
    requires FreshId(w, id)
    ensures var (w', r) := CreateSpec(w, f, d, id, realtorId);
      r.Err? && !f.leaseDeleteDown && !f.tenantDeleteDown ==> w' == w
  {
    var row := NewLeaseRow(d, id, realtorId);
    var ts := Normalise(d.tenants, d.tenant, d.tenantId);
    LeaseDropped(w, row, id);
    TenantLinksDropped(w, id, ts, d.monthlyRent);
    if ts == [] {
      assert w.tenantLinks + [] == w.tenantLinks;
    }
  }

  /** A failed rollback delete leaves its rows behind while the insert error is still
      thrown: when the lease delete fails the new lease row stays, and when the tenant
      delete fails after a landlord fault the new tenant rows stay. */
  lemma CreateLeavesOrphans(w: Tables, f: CreateFaults, d: LeaseInput, id: nat, realtorId: nat)
    ensures var (w', r) := CreateSpec(w, f, d, id, realtorId);
      var ts := Normalise(d.tenants, d.tenant, d.tenantId);
      && (r.Err? && r.error != LeaseInsertFailed && f.leaseDeleteDown ==>
            w'.leases == w.leases + [NewLeaseRow(d, id, realtorId)])
      && (r == Err(LandlordLinksFailed) && f.tenantDeleteDown ==>
            w'.tenantLinks == w.tenantLinks + (if ts != [] then TenantLinks(id, ts, d.monthlyRent) else []))
  {
    assert w.tenantLinks + [] == w.tenantLinks;
  }

  /** A successful create adds the lease row and exactly its join rows. */
  lemma CreateAdds(w: Tables, f: CreateFaults, d: LeaseInput, id: nat, realtorId: nat)
    ensures var (w', r) := CreateSpec(w, f, d, id, realtorId);
      r.Ok? ==>
        && r.value == NewLeaseRow(d, id, realtorId)
        && w'.leases == w.leases + [r.value]
        && w'.tenantLinks == w.tenantLinks + TenantLinks(id, Normalise(d.tenants, d.tenant, d.tenantId), d.monthlyRent)
        && w'.landlordLinks == w.landlordLinks + LandlordLinks(id, Normalise(d.landlords, d.landlord, d.landlordId))
  {
    assert w.tenantLinks + [] == w.tenantLinks;
    assert w.landlordLinks + [] == w.landlordLinks;
  }

  /** The database `create` talks to, with the faults of its inserts and deletes fixed. */
  class LeaseDatabase {
    var leases: seq<LeaseRow>
    var tenantLinks: seq<TenantLink>
    var landlordLinks: seq<LandlordLink>
    const faults: CreateFaults

    constructor (faults: CreateFaults)
      ensures leases == [] && tenantLinks == [] && landlordLinks == [] && this.faults == faults
    {
      leases, tenantLinks, landlordLinks := [], [], [];
      this.faults := faults;
    }

    function State(): Tables
      reads this
    {
      Tables(leases, tenantLinks, landlordLinks)
    }

    method InsertLease(row: LeaseRow) returns (ok: bool)
      modifies this
      ensures ok == !faults.leaseDown
      ensures State() == if ok then old(State()).(leases := old(leases) + [row]) else old(State())
    {
      ok := !faults.leaseDown;
      if ok {
        leases := leases + [row];
      }
    }

    /** A batch insert: all of the rows or none. */
    method InsertTenantLinks(rows: seq<TenantLink>) returns (ok: bool)
      modifies this
      ensures ok == !faults.tenantsDown
      ensures State() == if ok then old(State()).(tenantLinks := old(tenantLinks) + rows) else old(State())
    {
      ok := !faults.tenantsDown;
      if ok {
        tenantLinks := tenantLinks + rows;
      }
    }

    method InsertLandlordLinks(rows: seq<LandlordLink>) returns (ok: bool)
      modifies this
      ensures ok == !faults.landlordsDown
      ensures State() == if ok then old(State()).(landlordLinks := old(landlordLinks) + rows) else old(State())
    {
      ok := !faults.landlordsDown;
      if ok {
        landlordLinks := landlordLinks + rows;
      }
    }

    /** `from('leases').delete().eq('id', id)`; `ok` is whether the delete worked, which
        `create` never looks at. */
    method DeleteLease(id: nat) returns (ok: bool)
      modifies this
      ensures ok == !faults.leaseDeleteDown
      ensures State() == if ok then old(State()).(leases := Filter(old(leases), NotLease(id))) else old(State())
    {
      ok := !faults.leaseDeleteDown;
      if ok {
        leases := Filter(leases, NotLease(id));
      }
    }

    /** `from('lease_tenants').delete().eq('lease_id', id)`, with its error likewise
        unread by `create`. */
    method DeleteTenantLinks(id: nat) returns (ok: bool)
      modifies this
      ensures ok == !faults.tenantDeleteDown
      ensures State() == if ok then old(State()).(tenantLinks := Filter(old(tenantLinks), NotTenantLinkOf(id))) else old(State())
    {
      ok := !faults.tenantDeleteDown;
      if ok {
        tenantLinks := Filter(tenantLinks, NotTenantLinkOf(id));
      }
    }

    /** `create(leaseData, realtorId)`; `id` is the id the lease insert hands out. The
        read-back through findById is not modelled: the inserted row is returned. */
    method Create(d: LeaseInput, realtorId: nat, id: nat) returns (r: Result<LeaseRow, CreateError>)
      modifies this
      ensures (State(), r) == CreateSpec(old(State()), faults, d, id, realtorId)
    {
      var row := NewLeaseRow(d, id, realtorId);
      var ok := InsertLease(row);
      if !ok {
        return Err(LeaseInsertFailed);
      }
      var ts := Normalise(d.tenants, d.tenant, d.tenantId);
      if |ts| > 0 {
        ok := InsertTenantLinks(TenantLinks(id, ts, d.monthlyRent));
        if !ok {
          var _ := DeleteLease(id);
          return Err(TenantLinksFailed);
        }
      }
      var ls := Normalise(d.landlords, d.landlord, d.landlordId);
      if |ls| > 0 {
        ok := InsertLandlordLinks(LandlordLinks(id, ls));
        if !ok {
          var _ := DeleteTenantLinks(id);
          var _ := DeleteLease(id);
          return Err(LandlordLinksFailed);
        }
      }
      r := Ok(row);
    }
  }

  // ------------------------------------------------------------ update

  /** The fields of leaseData `update` looks at, named after the leases columns they
      go to (property_id, tenant_id, ..., reminders). */
  datatype Column =
    | PropertyId | TenantId | LandlordId | StartDate | EndDate | MonthlyRent
    | SecurityDeposit | LeaseTypeColumn | StatusColumn | RenewalOption | AutoRenewal
    | NoticeRequired | AdditionalTerms | Documents | Payments | Reminders

  /** Which test lets a field into the update: truthiness, or `!== undefined`. Text and
      date fields and status must be truthy; numbers, flags, terms and the lists only
      need to be present, so 0 and false are copied. */
  function TestOf(c: Column): Test {
    match c
    case PropertyId => Truthy
    case TenantId => Truthy
    case LandlordId => Truthy
    case StartDate => Truthy
    case EndDate => Truthy
    case LeaseTypeColumn => Truthy
    case StatusColumn => Truthy
    case _ => Defined
  }

  datatype Test = Truthy | Defined

  /** The field passes its test. An absent key is undefined. */
  predicate Supplied(data: map<Column, JsonValue>, c: Column) {
    c in data && data[c] != Missing && (TestOf(c) == Truthy ==> !Falsy(data[c]))
  }

  /** u holds exactly the supplied fields among the columns cs, with their values. */
  ghost predicate CopiedFrom(data: map<Column, JsonValue>, u: map<Column, JsonValue>, cs: set<Column>) {
    && (forall c :: c in u <==> c in cs && Supplied(data, c))
    && (forall c :: c in u ==> c in data && u[c] == data[c])
  }

  /** One `if (...) updateData.column = leaseData.field`. */
  method CopyField(data: map<Column, JsonValue>, u: map<Column, JsonValue>, ghost cs: set<Column>, c: Column)
    returns (u': map<Column, JsonValue>)
    requires CopiedFrom(data, u, cs)
    ensures CopiedFrom(data, u', cs + {c})
  {
    u' := u;
    var pass := if TestOf(c) == Truthy then c in data && !Falsy(data[c]) else c in data && data[c] != Missing;
    if pass {
      u' := u'[c := data[c]];
    }
  }

  ghost const AllColumns: set<Column> := {
    PropertyId, TenantId, LandlordId, StartDate, EndDate, MonthlyRent, SecurityDeposit,
    LeaseTypeColumn, StatusColumn, RenewalOption, AutoRenewal, NoticeRequired,
    AdditionalTerms, Documents, Payments, Reminders }

  lemma EveryColumn(c: Column)
    ensures c in AllColumns
  {
    match c
    case PropertyId =>
    case TenantId =>
    case LandlordId =>
    case StartDate =>
    case EndDate =>
    case MonthlyRent =>
    case SecurityDeposit =>
    case LeaseTypeColumn =>
    case StatusColumn =>
    case RenewalOption =>
    case AutoRenewal =>
    case NoticeRequired =>
    case AdditionalTerms =>
    case Documents =>
    case Payments =>
    case Reminders =>
  }

  /** The updateData record of `update`: a column is set exactly when its field is
      supplied, and then to the field's value; nothing else is set. */
  method UpdateData(data: map<Column, JsonValue>) returns (u: map<Column, JsonValue>)
    ensures forall c :: c in u <==> Supplied(data, c)
    ensures forall c :: c in u ==> c in data && u[c] == data[c]
  {
    u := map[];
    ghost var cs: set<Column> := {};
    u := CopyField(data, u, cs, PropertyId);
    cs := cs + {PropertyId};
    u := CopyField(data, u, cs, TenantId);
    cs := cs + {TenantId};
    u := CopyField(data, u, cs, LandlordId);
    cs := cs + {LandlordId};
    u := CopyField(data, u, cs, StartDate);
    cs := cs + {StartDate};
    u := CopyField(data, u, cs, EndDate);
    cs := cs + {EndDate};
    u := CopyField(data, u, cs, MonthlyRent);
    cs := cs + {MonthlyRent};
    u := CopyField(data, u, cs, SecurityDeposit);
    cs := cs + {SecurityDeposit};
    u := CopyField(data, u, cs, LeaseTypeColumn);
    cs := cs + {LeaseTypeColumn};
    u := CopyField(data, u, cs, StatusColumn);
    cs := cs + {StatusColumn};
    u := CopyField(data, u, cs, RenewalOption);
    cs := cs + {RenewalOption};
    u := CopyField(data, u, cs, AutoRenewal);
    cs := cs + {AutoRenewal};
    u := CopyField(data, u, cs, NoticeRequired);
    cs := cs + {NoticeRequired};
    u := CopyField(data, u, cs, AdditionalTerms);
    cs := cs + {AdditionalTerms};
    u := CopyField(data, u, cs, Documents);
    cs := cs + {Documents};
    u := CopyField(data, u, cs, Payments);
    cs := cs + {Payments};
    u := CopyField(data, u, cs, Reminders);
    cs := cs + {Reminders};
    forall c ensures c in cs {
      EveryColumn(c);
    }
  }

  /** A falsy but defined value (null, false, 0 or "") is never copied into an id, date,
      type or status column, and always copied into every other column. */
  lemma FalsyFieldsInUpdate(data: map<Column, JsonValue>, c: Column, v: JsonValue)
    requires Falsy(v) && v != Missing
    ensures TestOf(c) == Truthy ==> !Supplied(data[c := v], c)
    ensures TestOf(c) == Defined ==> Supplied(data[c := v], c)
  {
  }

  // ------------------------------------------------------------ getStats

  function StatusCounts(rows: seq<LeaseStatus>): seq<(LeaseStatus, nat)>
  {
    if rows == [] then [] else Bump(StatusCounts(rows[..|rows| - 1]), rows[|rows| - 1])
  }

  function IsStatus(s: LeaseStatus): LeaseStatus -> bool {
    x => x == s
  }

  datatype LeaseStats = LeaseStats(totalLeases: nat, activeLeases: nat, monthlyRevenue: int, statusCounts: seq<(LeaseStatus, nat)>)

  /** `reduce((sum, lease) => sum + (lease.monthly_rent || 0), 0)`: a null rent adds 0. */
  function RentSum(rents: seq<Option<int>>): int {
    if rents == [] then 0
    else RentSum(rents[..|rents| - 1]) + (if rents[|rents| - 1].Some? then rents[|rents| - 1].value else 0)
  }

  /** getStats over the realtor's status column and the active leases' monthly_rent
      column (None: the select answered with an error, which is thrown). */
  function GetStats(rows: Option<seq<LeaseStatus>>, rents: Option<seq<Option<int>>>): (r: Option<LeaseStats>)
    ensures r.None? <==> rows.None? || rents.None?
    ensures r.Some? ==> r.value.totalLeases == |rows.value| && r.value.monthlyRevenue == RentSum(rents.value)
  {
    if rows.None? then None
    else if rents.None? then None
    else Some(LeaseStats(|rows.value|, Count(rows.value, IsStatus(Active)), RentSum(rents.value), StatusCounts(rows.value)))
  }

  /** The revenue is the sum of the present rents, whatever the nulls among them. */
  lemma {:induction false} RentSumAppend(a: seq<Option<int>>, b: seq<Option<int>>)
    ensures RentSum(a + b) == RentSum(a) + RentSum(b)
  {
    if b != [] {
      var b0 := b[..|b| - 1];
      assert (a + b)[..|a + b| - 1] == a + b0;
      RentSumAppend(a, b0);
    } else {
      assert a + b == a;
    }
  }

  /** A null rent adds nothing to the revenue. */
  lemma NullRentAddsNothing(a: seq<Option<int>>, b: seq<Option<int>>)
    ensures RentSum(a + [None] + b) == RentSum(a + b)
  {
    RentSumAppend(a + [None], b);
    RentSumAppend(a, b);
    assert (a + [None])[..|a + [None]| - 1] == a;
  }

  lemma {:induction false} StatusCountsFacts(rows: seq<LeaseStatus>)
    ensures DistinctKeys(StatusCounts(rows))
    ensures Total(StatusCounts(rows)) == |rows|
    ensures forall s :: CountOf(StatusCounts(rows), s) == Count(rows, IsStatus(s))
  {
    if rows != [] {
      var init := rows[..|rows| - 1];
      StatusCountsFacts(init);
      BumpKeys(StatusCounts(init), rows[|rows| - 1]);
      BumpCounts(StatusCounts(init), rows[|rows| - 1]);
    }
  }

  /** The status counters add up to totalLeases, one counter per status seen, and the
      'active' counter is activeLeases. */
  lemma StatsAddUp(rows: seq<LeaseStatus>, rents: seq<Option<int>>)
    ensures var st := GetStats(Some(rows), Some(rents)).value;
      && Total(st.statusCounts) == st.totalLeases == |rows|
      && DistinctKeys(st.statusCounts)
      && CountOf(st.statusCounts, Active) == st.activeLeases
      && forall s :: CountOf(st.statusCounts, s) == Count(rows, IsStatus(s))
  {
    StatusCountsFacts(rows);
  }
}
