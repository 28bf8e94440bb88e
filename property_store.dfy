/** The frontend property store: the active/inactive partition, the grouping by type,
    and its wording for the shared list actions. */
module PropertyStore {
  import opened Common
  import opened Records
  import opened ListStore

  /** A property as the store lists it. */
  datatype StoreProperty = StoreProperty(id: int, isActive: JsonValue, propertyType: Option<string>)

  function PropertyId(p: StoreProperty): int { p.id }

  predicate IsActive(p: StoreProperty) { !Falsy(p.isActive) }
  predicate IsInactive(p: StoreProperty) { Falsy(p.isActive) }

  function ActiveProperties(ps: seq<StoreProperty>): seq<StoreProperty> { Filter(ps, IsActive) }
  function InactiveProperties(ps: seq<StoreProperty>): seq<StoreProperty> { Filter(ps, IsInactive) }

  /** The two getters split the list by the truthiness of is_active: every property is in
      exactly one of them, and their sizes add up. */
  lemma ActivePartition(ps: seq<StoreProperty>, x: StoreProperty)
    ensures x in ActiveProperties(ps) <==> x in ps && !Falsy(x.isActive)
    ensures x in InactiveProperties(ps) <==> x in ps && Falsy(x.isActive)
    ensures |ActiveProperties(ps)| + |InactiveProperties(ps)| == |ps|
  {
    if x in ps {
      if IsActive(x) {
        FilterComplete(ps, IsActive, x);
      } else {
        FilterComplete(ps, IsInactive, x);
      }
    }
    FilterCount(ps, IsActive);
    FilterCount(ps, IsInactive);
    CountComplement(ps, IsActive, IsInactive);
  }

  /** `property.property_type || 'other'`. */
  function TypeKey(p: StoreProperty): string {
    if p.propertyType.Some? && p.propertyType.value != "" then p.propertyType.value else "other"
  }

  function PropertiesByType(ps: seq<StoreProperty>): seq<(string, seq<StoreProperty>)> {
    GroupBy(ps, TypeKey)
  }

  /** Each property is in exactly one group, that of its type or "other", in input order. */
  lemma PropertiesByTypeCorrect(ps: seq<StoreProperty>)
    ensures DistinctKeys(PropertiesByType(ps))
    ensures forall x, k :: x in ps ==> (x in GroupOf(PropertiesByType(ps), k) <==> k == TypeKey(x))
    ensures forall k :: GroupOf(PropertiesByType(ps), k) == WithKey(ps, TypeKey, k)
    ensures TotalSize(PropertiesByType(ps)) == |ps|
  {
    GroupByCorrect(ps, TypeKey);
    GroupBySize(ps, TypeKey);
    forall x, k | x in ps ensures x in GroupOf(PropertiesByType(ps), k) <==> k == TypeKey(x) {
      WithKeyMembers(ps, TypeKey, k, x);
    }
  }

  const PropertyFilters: map<string, string> := map["search" := "", "propertyType" := "", "city" := "", "isActive" := "true"]

  /** Create failures show the server's messages; update failures do not. */
  const PropertyWording := Wording(
    "Failed to fetch properties", "Failed to fetch property details",
    "Failed to create property", "Property created successfully",
    "Failed to update property", "Property updated successfully",
    "Failed to delete property", "Property deleted successfully",
    true, false)

  method NewPropertyStore() returns (s: EntityStore<StoreProperty>)
    ensures fresh(s)
    ensures s.idOf == PropertyId && s.wording == PropertyWording && s.defaultFilters == PropertyFilters
    ensures s.items == [] && s.current.None? && !s.loading
    ensures s.pagination == InitialPagination && s.filters == PropertyFilters
  {
    s := new EntityStore(PropertyId, PropertyWording, PropertyFilters);
  }
}
