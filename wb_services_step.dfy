/**
 * The additional-services step of the chat-bot build
 * (wb-bot-vite/src/components/calculator-steps/AdditionalServicesStep.jsx). Its rule and its
 * emitted updates are those of the main application's copy; the one difference is that a toggle
 * which leaves no location-requiring service selected also clears the local address.
 */
module WbServicesStep {
  import opened Wrappers
  import opened Js
  import opened Form
  import opened Catalog
  import ServicesStep

  class Step {
    var serviceGroups: seq<ServiceGroup>
    var address: string
    var errors: map<string, string>

    constructor (pickupAddress: string)
      ensures serviceGroups == [] && address == pickupAddress && errors == map[]
    {
      serviceGroups := [];
      address := pickupAddress;
      errors := map[];
    }

    method CatalogLoaded(groups: seq<ServiceGroup>)
      modifies this`serviceGroups
      ensures serviceGroups == groups
    {
      serviceGroups := groups;
    }

    /** `validate`: the same address rule and message as the main application's copy. */
    method Validate(selected: seq<ServiceId>) returns (isValid: bool)
      modifies this`errors
      ensures errors == ServicesStep.AddressErrors(serviceGroups, selected, address)
      ensures isValid <==> AddressSatisfied(serviceGroups, selected, address)
    {
      var newErrors: map<string, string> := map[];
      var hasPickupService := AnyRequiresLocation(serviceGroups, selected);
      if hasPickupService && IsBlank(address) {
        newErrors := newErrors[ServicesStep.AddressKey := ServicesStep.AddressMissing];
      }
      errors := newErrors;
      isValid := |newErrors| == 0;
    }

    /** `handleServiceChange(id)`: emits what the main application's copy emits, and clears the
        local address when the new selection needs none; the emitted address is always the new
        local one. */
    method HandleServiceChange(selected: seq<ServiceId>, id: ServiceId, checked: bool) returns (u: ServicesUpdate)
      modifies this`address
      ensures u == ServicesStep.ToggleUpdate(serviceGroups, old(address), selected, id, checked)
      ensures address == if AnyRequiresLocation(serviceGroups, u.services.value) then old(address) else ""
      ensures u.address == Some(address)
    {
      var newSelectedServices := Toggled(selected, id, checked);
      var hasLocationService := AnyRequiresLocation(serviceGroups, newSelectedServices);
      var emitted := if hasLocationService then address else "";
      if !hasLocationService {
        address := "";
      }
      u := Fields(Some(newSelectedServices), Some(emitted));
    }

    method HandleAddressChange(selected: seq<ServiceId>, newAddress: string) returns (u: ServicesUpdate)
      modifies this`address
      ensures address == newAddress
      ensures u == Fields(Some(selected), Some(newAddress))
    {
      address := newAddress;
      u := Fields(Some(selected), Some(newAddress));
    }
  }

  /** How the two copies differ after the same toggle: the main application's step keeps a
      local address the chat-bot step has cleared, so re-selecting a location service shows the
      old address again in one copy and an empty field in the other. Given the same local
      address, the next toggle that needs a location emits `address` from the first copy and
      `''` from the second. */
  lemma CopiesDivergeAfterClearing(groups: seq<ServiceGroup>, address: string, selected: seq<ServiceId>,
                                   off: ServiceId, on: ServiceId)
    requires !AnyRequiresLocation(groups, Toggled(selected, off, false))
    requires AnyRequiresLocation(groups, Toggled(Toggled(selected, off, false), on, true))
    ensures var first := ServicesStep.ToggleUpdate(groups, address, selected, off, false);
            var kept := ServicesStep.ToggleUpdate(groups, address, first.services.value, on, true);
            var cleared := ServicesStep.ToggleUpdate(groups, "", first.services.value, on, true);
            kept.address == Some(address) && cleared.address == Some("")
  {
  }
}
