/** The frontend contact store: the active/inactive partition and its wording for the
    shared list actions. */
module ContactStore {
  import opened Common
  import opened Records
  import opened ListStore

  datatype StoreContact = StoreContact(id: int, isActive: JsonValue)

  function ContactId(c: StoreContact): int { c.id }

  predicate IsActive(c: StoreContact) { !Falsy(c.isActive) }
  predicate IsInactive(c: StoreContact) { Falsy(c.isActive) }

  function ActiveContacts(cs: seq<StoreContact>): seq<StoreContact> { Filter(cs, IsActive) }
  function InactiveContacts(cs: seq<StoreContact>): seq<StoreContact> { Filter(cs, IsInactive) }

  /** The two getters split the list by the truthiness of is_active. */
  lemma ActivePartition(cs: seq<StoreContact>, x: StoreContact)
    ensures x in ActiveContacts(cs) <==> x in cs && !Falsy(x.isActive)
    ensures x in InactiveContacts(cs) <==> x in cs && Falsy(x.isActive)
    ensures |ActiveContacts(cs)| + |InactiveContacts(cs)| == |cs|
  {
    if x in cs {
      if IsActive(x) {
        FilterComplete(cs, IsActive, x);
      } else {
        FilterComplete(cs, IsInactive, x);
      }
    }
    FilterCount(cs, IsActive);
    FilterCount(cs, IsInactive);
    CountComplement(cs, IsActive, IsInactive);
  }

  const ContactFilters: map<string, string> := map["search" := "", "contactType" := "", "isActive" := "true"]

  /** Neither create nor update failures show the server's message. */
  const ContactWording := Wording(
    "Failed to fetch contacts", "Failed to fetch contact details",
    "Failed to create contact", "Contact created successfully",
    "Failed to update contact", "Contact updated successfully",
    "Failed to delete contact", "Contact deleted successfully",
    false, false)

  method NewContactStore() returns (s: EntityStore<StoreContact>)
    ensures fresh(s)
    ensures s.idOf == ContactId && s.wording == ContactWording && s.defaultFilters == ContactFilters
    ensures s.items == [] && s.current.None? && !s.loading
    ensures s.pagination == InitialPagination && s.filters == ContactFilters
  {
    s := new EntityStore(ContactId, ContactWording, ContactFilters);
  }
}
