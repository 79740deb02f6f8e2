/**
 * The additional-services catalog as the services step holds it after loading, and the lookup
 * both copies of the step use: `serviceGroups.flatMap(g => g.services).find(s => s.id === id)`
 * followed by `service?.requires_location`.
 */
module Catalog {
  import opened Wrappers
  import opened Js
  import opened Form

  datatype Service = Service(id: ServiceId, name: string, price: string, requiresLocation: bool)

  datatype ServiceGroup = ServiceGroup(title: string, services: seq<Service>)

  /** `groups.flatMap(group => group.services)`. */
  function Flatten(groups: seq<ServiceGroup>): (r: seq<Service>)
    ensures forall s :: s in r <==> exists g :: g in groups && s in g.services
  {
    if groups == [] then []
    else
      assert forall g :: g in groups <==> g == groups[0] || g in groups[1..];
      groups[0].services + Flatten(groups[1..])
  }

  /** The position of the first service with that id, or `|services|` when there is none. */
  function FirstIndex(services: seq<Service>, id: ServiceId): (r: nat)
    ensures r <= |services|
    ensures forall j :: 0 <= j < r ==> services[j].id != id
    ensures r < |services| ==> services[r].id == id
  {
    if services == [] || services[0].id == id then 0 else 1 + FirstIndex(services[1..], id)
  }

  /** `services.find(s => s.id === id)`: the first service with that id, if any. */
  function Find(services: seq<Service>, id: ServiceId): (r: Option<Service>)
    ensures r.None? <==> forall s :: s in services ==> s.id != id
    ensures r.Some? ==> r.value.id == id && r.value == services[FirstIndex(services, id)]
  {
    var i := FirstIndex(services, id);
    if i < |services| then Some(services[i]) else None
  }

  /** `service?.requires_location` for the service the id resolves to in the catalog. */
  predicate RequiresLocation(groups: seq<ServiceGroup>, id: ServiceId) {
    var found := Find(Flatten(groups), id);
    found.Some? && found.value.requiresLocation
  }

  /** `ids.some(id => ...requires_location)`: some selected id needs a pickup address. */
  predicate AnyRequiresLocation(groups: seq<ServiceGroup>, ids: seq<ServiceId>) {
    ids != [] && (RequiresLocation(groups, ids[0]) || AnyRequiresLocation(groups, ids[1..]))
  }

  /** `some` is an existential over the selection. */
  lemma {:induction false} AnyRequiresLocationIff(groups: seq<ServiceGroup>, ids: seq<ServiceId>)
    ensures AnyRequiresLocation(groups, ids) <==> exists i :: 0 <= i < |ids| && RequiresLocation(groups, ids[i])
  {
    if ids != [] {
      AnyRequiresLocationIff(groups, ids[1..]);
      if exists i :: 0 <= i < |ids| && RequiresLocation(groups, ids[i]) {
        var i :| 0 <= i < |ids| && RequiresLocation(groups, ids[i]);
        if i > 0 { assert ids[1..][i - 1] == ids[i]; }
      }
    }
  }

  /** An id that no service of the catalog carries never requires a location, and neither does
      a selection made only of such ids. */
  lemma UnknownIdsNeedNoLocation(groups: seq<ServiceGroup>, ids: seq<ServiceId>)
    requires forall g, s :: g in groups && s in g.services ==> s.id !in ids
    ensures !AnyRequiresLocation(groups, ids)
  {
    AnyRequiresLocationIff(groups, ids);
    forall i | 0 <= i < |ids| ensures !RequiresLocation(groups, ids[i]) {
    }
  }

  /** When the catalog lists an id twice, the first listing decides. */
  lemma FirstListingDecides(groups: seq<ServiceGroup>, id: ServiceId, i: nat)
    requires i < |Flatten(groups)| && Flatten(groups)[i].id == id
    requires forall j :: 0 <= j < i ==> Flatten(groups)[j].id != id
    ensures RequiresLocation(groups, id) == Flatten(groups)[i].requiresLocation
  {
    var all := Flatten(groups);
    var k := FirstIndex(all, id);
    assert k == i;
  }

  /** The services step's validity rule, shared by both copies: the address may be blank only
      when no selected service requires a location. */
  predicate AddressSatisfied(groups: seq<ServiceGroup>, selected: seq<ServiceId>, address: string) {
    !(AnyRequiresLocation(groups, selected) && IsBlank(address))
  }

  /** The rule in plain terms: the step fails exactly when some selected id resolves to a
      service that requires a location and the address is whitespace only (or empty). */
  lemma AddressSatisfiedIff(groups: seq<ServiceGroup>, selected: seq<ServiceId>, address: string)
    ensures !AddressSatisfied(groups, selected, address) <==>
            (exists i :: 0 <= i < |selected| && RequiresLocation(groups, selected[i])) &&
            (forall j :: 0 <= j < |address| ==> IsWhitespace(address[j]))
  {
    AnyRequiresLocationIff(groups, selected);
    BlankIffAllWhitespace(address);
  }
}
