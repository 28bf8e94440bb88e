/** The frontend lease store: its status getters, the 30-day expiry getter, the grouping
    by status, and its wording for the shared list actions. */
module LeaseStore {
  import opened Common
  import opened ListStore

  /** A lease as the store lists it; `status` is None when absent. `endDate` is the
      millisecond timestamp of `new Date(lease.end_date)`, None when the field is absent
      or not a date (every comparison with an invalid Date is false). */
  datatype StoreLease = StoreLease(id: int, status: Option<string>, endDate: Option<int>)

  function LeaseId(l: StoreLease): int { l.id }

  predicate HasStatus(l: StoreLease, s: string) { l.status == Some(s) }

  /** `leases.filter(lease => lease.status === s)`. */
  function WithStatus(leases: seq<StoreLease>, s: string): seq<StoreLease> {
    Filter(leases, (l: StoreLease) => HasStatus(l, s))
  }

  function ActiveLeases(leases: seq<StoreLease>): seq<StoreLease> { WithStatus(leases, "active") }
  function ExpiredLeases(leases: seq<StoreLease>): seq<StoreLease> { WithStatus(leases, "expired") }
  function PendingLeases(leases: seq<StoreLease>): seq<StoreLease> { WithStatus(leases, "pending") }
  function TerminatedLeases(leases: seq<StoreLease>): seq<StoreLease> { WithStatus(leases, "terminated") }

  /** A status getter keeps exactly the leases with that status, in order, and the getters
      for two different statuses share no lease. */
  lemma WithStatusMembers(leases: seq<StoreLease>, s: string, t: string, x: StoreLease)
    ensures x in WithStatus(leases, s) <==> x in leases && x.status == Some(s)
    ensures s != t ==> !(x in WithStatus(leases, s) && x in WithStatus(leases, t))
    ensures |WithStatus(leases, s)| == Count(leases, (l: StoreLease) => HasStatus(l, s))
  {
    if x in leases && x.status == Some(s) {
      FilterComplete(leases, (l: StoreLease) => HasStatus(l, s), x);
    }
    FilterCount(leases, (l: StoreLease) => HasStatus(l, s));
  }

  const ThirtyDaysMs := 30 * DayMs

  /** An active lease whose end date lies between the instant `now` and thirty days later. */
  predicate ExpiresSoon(l: StoreLease, now: int) {
    && l.status == Some("active")
    && l.endDate.Some?
    && now <= l.endDate.value <= now + ThirtyDaysMs
  }

  function ExpiringLeases(leases: seq<StoreLease>, now: int): seq<StoreLease> {
    Filter(leases, (l: StoreLease) => ExpiresSoon(l, now))
  }

  /** The expiry getter keeps exactly the active leases ending within the next 30 days;
      a lease without an end date is never kept, and neither is one whose end date is
      00:00 UTC of a day that has already begun. */
  lemma ExpiringLeasesMembers(leases: seq<StoreLease>, now: int, x: StoreLease)
    ensures x in ExpiringLeases(leases, now) <==>
      x in leases && x.status == Some("active") && x.endDate.Some? && now <= x.endDate.value <= now + ThirtyDaysMs
    ensures x.endDate.Some? && x.endDate.value < now ==> x !in ExpiringLeases(leases, now)
    ensures x in ExpiringLeases(leases, now) ==> x in ActiveLeases(leases)
  {
    if ExpiresSoon(x, now) && x in leases {
      FilterComplete(leases, (l: StoreLease) => ExpiresSoon(l, now), x);
      FilterComplete(leases, (l: StoreLease) => HasStatus(l, "active"), x);
    }
  }

  /** `lease.status || 'unknown'`. */
  function StatusKey(l: StoreLease): string {
    if l.status.Some? && l.status.value != "" then l.status.value else "unknown"
  }

  function LeasesByStatus(leases: seq<StoreLease>): seq<(string, seq<StoreLease>)> {
    GroupBy(leases, StatusKey)
  }

  /** Each lease is in exactly one group, the one of its status (or "unknown"), in input
      order, and the group sizes add up to the number of leases. */
  lemma LeasesByStatusCorrect(leases: seq<StoreLease>)
    ensures DistinctKeys(LeasesByStatus(leases))
    ensures forall x, k :: x in leases ==> (x in GroupOf(LeasesByStatus(leases), k) <==> k == StatusKey(x))
    ensures forall k :: GroupOf(LeasesByStatus(leases), k) == WithKey(leases, StatusKey, k)
    ensures TotalSize(LeasesByStatus(leases)) == |leases|
  {
    GroupByCorrect(leases, StatusKey);
    GroupBySize(leases, StatusKey);
    forall x, k | x in leases ensures x in GroupOf(LeasesByStatus(leases), k) <==> k == StatusKey(x) {
      WithKeyMembers(leases, StatusKey, k, x);
    }
  }

  const LeaseFilters: map<string, string> := map["search" := "", "status" := "", "propertyId" := "", "tenantId" := ""]

  const LeaseWording := Wording(
    "Failed to fetch leases", "Failed to fetch lease details",
    "Failed to create lease", "Lease created successfully",
    "Failed to update lease", "Lease updated successfully",
    "Failed to delete lease", "Lease deleted successfully",
    true, true)

  /** The lease store as set up by `useLeaseStore`. */
  method NewLeaseStore() returns (s: EntityStore<StoreLease>)
    ensures fresh(s)
    ensures s.idOf == LeaseId && s.wording == LeaseWording && s.defaultFilters == LeaseFilters
    ensures s.items == [] && s.current.None? && !s.loading
    ensures s.pagination == InitialPagination && s.filters == LeaseFilters
  {
    s := new EntityStore(LeaseId, LeaseWording, LeaseFilters);
  }
}
