/**
 * The additional-services step of the main application
 * (src/components/calculator-steps/AdditionalServicesStep.jsx). It keeps the loaded catalog,
 * a local copy of the pickup address and its own error map; the selection itself is owned by
 * the controller and passed in as `formData`.
 */
module ServicesStep {
  import opened Wrappers
  import opened Js
  import opened Form
  import opened Catalog

  const AddressKey := "pickupAddress"
  const AddressMissing := "Укажите адрес для забора груза"

  /** The error map `validate` builds: one entry when the address rule fails, none otherwise. */
  function AddressErrors(groups: seq<ServiceGroup>, selected: seq<ServiceId>, address: string): (errs: map<string, string>)
    ensures errs == map[] <==> AddressSatisfied(groups, selected, address)
    ensures errs != map[] ==> errs == map[AddressKey := AddressMissing]
  {
    if AnyRequiresLocation(groups, selected) && IsBlank(address) then
      var e := map[AddressKey := AddressMissing];
      assert AddressKey in e;
      e
    else map[]
  }

  /** What a checkbox change emits: the toggled selection, and the local address when the new
      selection needs one, `''` otherwise. */
  function ToggleUpdate(groups: seq<ServiceGroup>, address: string, selected: seq<ServiceId>,
                        id: ServiceId, checked: bool): (u: ServicesUpdate)
    ensures u.Fields? && u.services.Some? && u.address.Some?
    ensures forall y :: y in u.services.value <==> (y in selected && y != id) || (checked && y == id)
    ensures checked ==> u.services.value == selected + [id]
    ensures !checked ==> id !in u.services.value && u.services.value == Without(selected, id)
    ensures AnyRequiresLocation(groups, u.services.value) ==> u.address.value == address
    ensures !AnyRequiresLocation(groups, u.services.value) ==> u.address.value == ""
  {
    var newSelected := Toggled(selected, id, checked);
    Fields(Some(newSelected), Some(if AnyRequiresLocation(groups, newSelected) then address else ""))
  }

  /** The address the toggle emits passes the step's rule exactly when the local address does:
      whenever the new selection needs an address, the emitted one is the local one. */
  lemma ToggleKeepsValidity(groups: seq<ServiceGroup>, address: string, selected: seq<ServiceId>,
                            id: ServiceId, checked: bool)
    ensures var u := ToggleUpdate(groups, address, selected, id, checked);
            AddressSatisfied(groups, u.services.value, u.address.value) ==
            AddressSatisfied(groups, u.services.value, address)
  {
  }

  /** With nothing selected, the step is valid whatever the address. */
  lemma EmptySelectionValid(groups: seq<ServiceGroup>, address: string)
    ensures AddressErrors(groups, [], address) == map[]
  {
  }

  class Step {
    var serviceGroups: seq<ServiceGroup>
    var address: string
    var errors: map<string, string>

    /** Mounted with the address the controller holds; the catalog is still empty. */
    constructor (pickupAddress: string)
      ensures serviceGroups == [] && address == pickupAddress && errors == map[]
    {
      serviceGroups := [];
      address := pickupAddress;
      errors := map[];
    }

    /** The catalog request succeeded (`setServiceGroups(response.serviceGroups)`). */
    method CatalogLoaded(groups: seq<ServiceGroup>)
      modifies this`serviceGroups
      ensures serviceGroups == groups
    {
      serviceGroups := groups;
    }

    /** `validate`: records the error map and reports whether it is empty. */
    method Validate(selected: seq<ServiceId>) returns (isValid: bool)
      modifies this`errors
      ensures errors == AddressErrors(serviceGroups, selected, address)
      ensures isValid <==> AddressSatisfied(serviceGroups, selected, address)
    {
      var newErrors: map<string, string> := map[];
      var hasLocationRequiringService := AnyRequiresLocation(serviceGroups, selected);
      if hasLocationRequiringService && IsBlank(address) {
        newErrors := newErrors[AddressKey := AddressMissing];
      }
      errors := newErrors;
      isValid := |newErrors| == 0;
    }

    /** `handleServiceChange(id)` for a checkbox event: emits the update and leaves the local
        address as it is. */
    method HandleServiceChange(selected: seq<ServiceId>, id: ServiceId, checked: bool) returns (u: ServicesUpdate)
      ensures u == ToggleUpdate(serviceGroups, address, selected, id, checked)
    {
      var newSelectedServices := Toggled(selected, id, checked);
      var needsLocation := AnyRequiresLocation(serviceGroups, newSelectedServices);
      u := Fields(Some(newSelectedServices), Some(if needsLocation then address else ""));
    }

    /** `handleAddressChange`: stores the typed address and emits it with the selection unchanged. */
    method HandleAddressChange(selected: seq<ServiceId>, newAddress: string) returns (u: ServicesUpdate)
      modifies this`address
      ensures address == newAddress
      ensures u == Fields(Some(selected), Some(newAddress))
    {
      address := newAddress;
      u := Fields(Some(selected), Some(newAddress));
    }

    /** `needsLocationInput`: the address field is shown exactly when some selected id resolves
        to a service that requires a location. */
    function NeedsLocationInput(selected: seq<ServiceId>): (r: bool)
      reads this
      ensures r <==> exists i :: 0 <= i < |selected| && RequiresLocation(serviceGroups, selected[i])
    {
      AnyRequiresLocationIff(serviceGroups, selected);
      AnyRequiresLocation(serviceGroups, selected)
    }
  }
}
