/**
 * The wizard controller of the main application (src/components/Calculator.tsx): the four-step
 * navigation, the submit-time required-field check and error routing, the price precondition,
 * the merge of step updates into the form record, the reset on "new order", and the adapter
 * that passes the services step's updates on.
 *
 * The network calls are not modelled: a method that would call the API receives the call's
 * outcome as a parameter and returns the body it would have posted (`None` when it posts
 * nothing).
 */
module Calculator {
  import opened Wrappers
  import opened Js
  import opened Form
  import opened Payload
  import opened Catalog
  import ServicesStep
  import SrcClient
  import WbClient

  const StepCount := 4
  /** The index of the additional-services step, where an address error sends the user back. */
  const ServicesStepIndex := 2

  const NextBlocked := "Пожалуйста, заполните все обязательные поля перед переходом к следующему шагу"
  const MissingPrefix := "Пожалуйста, заполните обязательные поля: "
  const AddressRollback := "Выбрана услуга забора груза. Пожалуйста, укажите адрес забора."
  const SubmitFailed := "Произошла ошибка при создании заказа. Пожалуйста, проверьте обязательные поля и попробуйте еще раз."

  datatype Severity = Success | Error

  /** The notification (`submitStatus`). */
  datatype Status = Status(open: bool, severity: Severity, message: string)

  const Closed := Status(false, Success, "")

  /** The parts of the created order the confirmation shows. */
  datatype OrderResponse = OrderResponse(orderId: string, sequenceNumber: int, totalPrice: string)

  /** How `api.createOrder` ended: the order was created, the server rejected it with an error
      body, or the request itself failed with a message. */
  datatype SubmitOutcome =
    | Created(response: OrderResponse)
    | Rejected(body: ErrorBody)
    | TransportFailed(message: string)

  datatype PriceDetails = PriceDetails(delivery: string, cargo: string, additionalServices: string)

  /** How `api.calculatePrice` ended. */
  datatype PriceOutcome = Priced(totalPrice: string, details: Option<PriceDetails>) | PriceFailed

  // ---------------------------------------------------------------- the submit-time check

  /** The keys of `requiredFields`, in declaration order. */
  datatype Field = CargoTypeField | PhoneField | ClientNameField {
    /** The key as the source spells it. */
    function Key(): string {
      match this
      case CargoTypeField => "cargo_type"
      case PhoneField => "phone"
      case ClientNameField => "client_name"
    }

    /** `fieldNames[field]`: how the notification names the field. */
    function Name(): string {
      match this
      case CargoTypeField => "тип груза"
      case PhoneField => "номер телефона"
      case ClientNameField => "имя клиента"
    }

    /** The position of the field in `requiredFields`. */
    function Rank(): nat {
      match this
      case CargoTypeField => 0
      case PhoneField => 1
      case ClientNameField => 2
    }
  }

  /** `[field]` when its value is blank, nothing otherwise. */
  function IfBlank(value: string, field: Field): (r: seq<Field>)
    ensures field in r <==> IsBlank(value)
    ensures forall x :: x in r ==> x == field
    ensures |r| <= 1
  {
    if IsBlank(value) then [field] else []
  }

  /** `missingFields`: the required fields (the first selected cargo kind, the phone, the client's
      name) that are empty or whitespace only, in declaration order. */
  function MissingFields(f: FormData): (r: seq<Field>)
    ensures CargoTypeField in r <==> IsBlank(FirstOr(f.selectedTypes))
    ensures PhoneField in r <==> IsBlank(f.phoneNumber)
    ensures ClientNameField in r <==> IsBlank(f.clientName)
    ensures forall i :: 0 <= i < |r| - 1 ==> r[i].Rank() < r[i + 1].Rank()
  {
    var a := IfBlank(FirstOr(f.selectedTypes), CargoTypeField);
    var b := IfBlank(f.phoneNumber, PhoneField);
    var c := IfBlank(f.clientName, ClientNameField);
    a + b + c
  }

  /** `xs.join(sep)`, computed from the front. Its contract is the left-to-right reading of
      `Array.prototype.join`: start from the first element, then append the separator and the
      next element, one element at a time. */
  function Join(xs: seq<string>, sep: string): (r: string)
    ensures xs == [] ==> r == ""
    ensures |xs| == 1 ==> r == xs[0]
    ensures |xs| > 1 ==> r == Join(xs[..|xs| - 1], sep) + sep + xs[|xs| - 1]
    decreases |xs|
  {
    if xs == [] then ""
    else if |xs| == 1 then xs[0]
    else
      var init := xs[..|xs| - 1];
      assert |xs| > 2 ==> xs[1..][..|xs[1..]| - 1] == init[1..];
      assert |xs| == 2 ==> xs[1..] == [xs[1]] && init == [xs[0]];
      xs[0] + sep + Join(xs[1..], sep)
  }

  /** The notification text for the missing fields: the fixed prefix, then the names. */
  function MissingMessage(fields: seq<Field>): (r: string)
    ensures |r| >= |MissingPrefix| && r[..|MissingPrefix|] == MissingPrefix
    ensures fields == [] ==> r == MissingPrefix
    ensures |fields| == 1 ==> r == MissingPrefix + fields[0].Name()
  {
    MissingPrefix + Join(seq(|fields|, i requires 0 <= i < |fields| => fields[i].Name()), ", ")
  }

  /** `errorMessage.toLowerCase()` mentions both "адрес" and "не указан". */
  predicate IsAddressError(message: string) {
    Includes(ToLower(message), "адрес") && Includes(ToLower(message), "не указан")
  }

  /** `error.message || ''` of what `api.createOrder` threw. */
  function SubmitErrorMessage(outcome: SubmitOutcome): (r: string)
    ensures outcome.Rejected? ==> r != "" && r == WbClient.OrderErrorMessage(outcome.body)
    ensures outcome.TransportFailed? ==> r == outcome.message
  {
    match outcome
    case Created(_) => ""
    case Rejected(body) => SrcClient.OrderErrorMessage(body)
    case TransportFailed(message) => message
  }

  // ---------------------------------------------------------------- the price precondition

  /** `canCalculate`: destination set, some cargo kind (or the older `cargoType`) present, and a
      count for a box or for a pallet. */
  predicate CanCalculate(d: FormData) {
    && d.marketplace != "" && d.warehouse != ""
    && (d.selectedTypes != [] || d.cargoType != "")
    && (|| ((d.cargoType == "box" || BoxKind in d.selectedTypes) &&
            (QuantityTruthy(d.quantities, BoxKind) || d.boxCount != ""))
        || ((d.cargoType == "pallet" || PalletKind in d.selectedTypes) &&
            (QuantityTruthy(d.quantities, PalletKind) || d.palletCount != "")))
  }

  // ---------------------------------------------------------------- the services adapter

  /** The update the controller applies for what the services step hands it, or `None` when it
      applies nothing (an object without either key). */
  function ServicesPatch(current: FormData, u: ServicesUpdate): (p: Option<FormPatch>)
    ensures p.None? <==> u.Fields? && u.services.None? && u.address.None?
    ensures p.Some? ==>
              p.value.(additionalServices := None, pickupAddress := None) == NoChange &&
              p.value.additionalServices.Some? && p.value.pickupAddress.Some?
    ensures u.Fields? && p.Some? ==>
              p.value.additionalServices.value == u.services.GetOr(current.additionalServices)
    ensures u.Fields? && u.services.Some? && |u.services.value| > 0 && (u.address.None? || IsBlank(u.address.value)) ==>
              p.value.pickupAddress.value == current.pickupAddress
    ensures u.Fields? && p.Some? && !(u.services.Some? && |u.services.value| > 0) ==>
              p.value.pickupAddress.value == u.address.GetOr("")
    ensures u.Fields? && u.address.Some? && !IsBlank(u.address.value) ==>
              p.value.pickupAddress.value == u.address.value
    ensures u.List? ==>
              p.value.additionalServices.value == u.ids &&
              p.value.pickupAddress.value == if |u.ids| > 0 then current.pickupAddress else ""
  {
    match u
    case Fields(services, address) =>
      if services.None? && address.None? then None
      else
        var keepOld := services.Some? && |services.value| > 0 && (address.None? || IsBlank(address.value));
        var updatedPickupAddress := if keepOld then current.pickupAddress else address.GetOr("");
        Some(NoChange.(additionalServices := Some(services.GetOr(current.additionalServices)),
                       pickupAddress := Some(updatedPickupAddress)))
    case List(ids) =>
      Some(NoChange.(additionalServices := Some(ids),
                     pickupAddress := Some(if |ids| > 0 then current.pickupAddress else "")))
  }

  // ---------------------------------------------------------------- properties

  /** The check lets an order through exactly when a kind is selected, the first selected kind
      is not blank, and both contact fields are filled. */
  lemma NothingMissingIffFilled(f: FormData)
    ensures MissingFields(f) == [] <==>
              f.selectedTypes != [] && !IsBlank(f.selectedTypes[0]) &&
              !IsBlank(f.phoneNumber) && !IsBlank(f.clientName)
  {
    var r := MissingFields(f);
    if r != [] {
      assert r[0] in r;
      match r[0]
      case CargoTypeField =>
      case PhoneField =>
      case ClientNameField =>
    }
  }

  /** The notification names the missing fields in Russian, separated by commas. */
  lemma MissingContactsMessage()
    ensures MissingMessage([PhoneField, ClientNameField]) == MissingPrefix + "номер телефона, имя клиента"
  {
    var names := seq(2, i requires 0 <= i < 2 => [PhoneField, ClientNameField][i].Name());
    assert names == ["номер телефона", "имя клиента"];
    assert Join(names[1..], ", ") == "имя клиента";
  }

  /** The server's address complaint is recognised whatever its capitalisation. */
  lemma CapitalisedAddressMessageRecognised()
    ensures IsAddressError("Адрес не указан")
  {
    var s := "Адрес не указан";
    var m := ToLower(s);
    assert m[0] == 'а' by { assert m[0] == LowerChar(s[0]); }
    assert m[1..] == s[1..] by {
      assert forall i :: 1 <= i < |s| ==> LowerChar(s[i]) == s[i];
    }
    assert m[..5] == "адрес";
    assert m[6..15] == "не указан";
    IncludesIff(m, "адрес");
    assert OccursAt(m, "адрес", 0);
    IncludesIff(m, "не указан");
    assert OccursAt(m, "не указан", 6);
  }

  /** A message without Cyrillic letters never sends the user back to the services step. */
  lemma NonCyrillicMessageIsNotAddressError(message: string)
    requires forall i :: 0 <= i < |message| ==> message[i] < '\U{0400}'
    ensures !IsAddressError(message)
  {
    var m := ToLower(message);
    assert forall i :: 0 <= i < |m| ==> m[i] < '\U{0400}';
    IncludesIff(m, "адрес");
    forall k
      ensures !OccursAt(m, "адрес", k)
    {
      if 0 <= k <= |m| - 5 {
        assert m[k..k + 5][0] == m[k];
      }
    }
  }

  /** A rejection without any message falls back to the client's English text, which is routed
      to the generic notification. */
  lemma SilentRejectionIsGeneric()
    ensures SubmitErrorMessage(Rejected(ErrorBody("", ""))) == WbClient.OrderFailed
    ensures !IsAddressError(SubmitErrorMessage(Rejected(ErrorBody("", ""))))
  {
    NonCyrillicMessageIsNotAddressError(WbClient.OrderFailed);
  }

  /** The record the wizard starts from cannot be priced. */
  lemma InitialCannotCalculate()
    ensures !CanCalculate(Initial)
  {
  }

  /** The price check also accepts the older `cargoType` and `boxCount` fields, which the price
      body ignores when no kind is selected: such a record is priced as zero boxes. */
  lemma LegacyFieldsPassPriceCheck()
    ensures var d := Initial.(marketplace := "wildberries", warehouse := "1", cargoType := "box", boxCount := "3");
            CanCalculate(d) && SrcClient.PriceRequestOf(d).cargo.cargoType == "box" &&
            SrcClient.PriceRequestOf(d).cargo.boxCount == Some(0)
  {
  }

  /** When the older scalar fields are empty, a price is asked for only when the body carries
      the truthy quantity of a selected kind. */
  lemma PricedCargoCarriesCount(f: FormData)
    requires CanCalculate(f) && f.cargoType == "" && f.boxCount == "" && f.palletCount == ""
    ensures var c := SrcClient.PriceRequestOf(f).cargo;
            || (BoxKind in f.selectedTypes && QuantityTruthy(f.quantities, BoxKind) &&
                c.boxCount == f.quantities[BoxKind])
            || (PalletKind in f.selectedTypes && QuantityTruthy(f.quantities, PalletKind) &&
                c.palletCount == f.quantities[PalletKind])
  {
  }

  /** Conversely, with a destination set, a selected kind with a truthy quantity is enough. */
  lemma CountedCargoCanBePriced(f: FormData, kind: string)
    requires f.marketplace != "" && f.warehouse != ""
    requires kind == BoxKind || kind == PalletKind
    requires kind in f.selectedTypes && QuantityTruthy(f.quantities, kind)
    ensures CanCalculate(f)
  {
  }

  /** The pickup address the controller stores after a checkbox change on the services step:
      the step's local address when the new selection needs one and it is filled in; the old
      stored address when the selection is not empty but the step emitted a blank address (in
      particular when no selected service needs a location any more); `''` once the selection
      is empty. */
  lemma StoredAddressAfterToggle(groups: seq<ServiceGroup>, f: FormData, local: string,
                                 id: ServiceId, checked: bool)
    ensures var u := ServicesStep.ToggleUpdate(groups, local, f.additionalServices, id, checked);
            var p := ServicesPatch(f, u);
            var selected := u.services.value;
            p.Some? && Merge(f, p.value).additionalServices == selected &&
            Merge(f, p.value).pickupAddress ==
              if selected == [] then ""
              else if AnyRequiresLocation(groups, selected) && !IsBlank(local) then local
              else f.pickupAddress
  {
    var u := ServicesStep.ToggleUpdate(groups, local, f.additionalServices, id, checked);
    assert IsBlank("");
  }

  // ---------------------------------------------------------------- the component

  class Controller {
    var activeStep: int
    var isStepValid: bool
    var validateStep: bool
    var showErrors: bool
    var isSuccess: bool
    var submitStatus: Status
    var orderPrice: Option<string>
    var priceDetails: Option<PriceDetails>
    var orderResponse: Option<OrderResponse>
    var formData: FormData

    /** The step index stays within the four steps, and the active step is always asked to
        validate itself: nothing ever sets `validateStep` back to false. */
    ghost predicate Valid()
      reads this
    {
      0 <= activeStep < StepCount && validateStep
    }

    constructor ()
      ensures Valid() && activeStep == 0 && isStepValid && validateStep && !showErrors
      ensures !isSuccess && submitStatus == Closed && orderResponse.None?
      ensures orderPrice.None? && priceDetails.None? && formData == Initial
    {
      activeStep := 0;
      isStepValid := true;
      validateStep := true;
      showErrors := false;
      isSuccess := false;
      submitStatus := Closed;
      orderPrice := None;
      priceDetails := None;
      orderResponse := None;
      formData := Initial;
    }

    /** The effect that runs after `activeStep` has changed: the new step validates itself and
        hides its errors until the user tries to move on. */
    method ActiveStepChanged()
      modifies this`validateStep, this`showErrors
      ensures validateStep && !showErrors
    {
      validateStep := true;
      showErrors := false;
    }

    /** `handleNext`, wired to the main button on every step but the last. */
    method HandleNext()
      requires Valid() && activeStep < StepCount - 1
      modifies this`activeStep, this`validateStep, this`showErrors, this`submitStatus
      ensures Valid() && validateStep
      ensures old(isStepValid) ==>
                activeStep == old(activeStep) + 1 && !showErrors && submitStatus == old(submitStatus)
      ensures !old(isStepValid) ==>
                activeStep == old(activeStep) && showErrors && submitStatus == Status(true, Error, NextBlocked)
    {
      validateStep := true;
      showErrors := true;
      if isStepValid {
        activeStep := activeStep + 1;
        showErrors := false;
        ActiveStepChanged();
      } else {
        submitStatus := Status(true, Error, NextBlocked);
      }
    }

    /** `handleBack`, whose button is disabled on the first step. */
    method HandleBack()
      requires Valid() && activeStep > 0
      modifies this`activeStep, this`validateStep, this`showErrors
      ensures Valid() && activeStep == old(activeStep) - 1 && !showErrors && validateStep
    {
      activeStep := activeStep - 1;
      showErrors := false;
      ActiveStepChanged();
    }

    /** `handleSubmit`, wired to the main button on the last step. Returns the order body it
        posts, `None` when the required-field check stops it before any request. */
    method HandleSubmit(outcome: SubmitOutcome) returns (sent: Option<OrderRequest>)
      requires Valid() && activeStep == StepCount - 1
      modifies this`activeStep, this`validateStep, this`showErrors, this`submitStatus
      modifies this`orderResponse, this`isSuccess
      ensures Valid() && validateStep
      ensures sent.Some? <==> old(isStepValid) && MissingFields(formData) == []
      ensures sent.Some? ==> sent.value == SrcClient.OrderRequestOf(formData)
      ensures sent.None? ==>
                activeStep == old(activeStep) && showErrors &&
                submitStatus == Status(true, Error, MissingMessage(MissingFields(formData))) &&
                isSuccess == old(isSuccess) && orderResponse == old(orderResponse)
      ensures sent.Some? && outcome.Created? ==>
                activeStep == old(activeStep) && isSuccess && orderResponse == Some(outcome.response) &&
                showErrors && submitStatus == old(submitStatus)
      ensures sent.Some? && !outcome.Created? ==>
                isSuccess == old(isSuccess) && orderResponse == old(orderResponse) &&
                (if IsAddressError(SubmitErrorMessage(outcome))
                 then activeStep == ServicesStepIndex && !showErrors &&
                      submitStatus == Status(true, Error, AddressRollback)
                 else activeStep == old(activeStep) && showErrors &&
                      submitStatus == Status(true, Error, SubmitFailed))
    {
      validateStep := true;
      showErrors := true;
      var missingFields := MissingFields(formData);
      if |missingFields| > 0 || !isStepValid {
        submitStatus := Status(true, Error, MissingMessage(missingFields));
        sent := None;
        return;
      }
      sent := Some(SrcClient.OrderRequestOf(formData));
      match outcome {
        case Created(response) =>
          orderResponse := Some(response);
          isSuccess := true;
        case _ =>
          var errorMessage := SubmitErrorMessage(outcome);
          if IsAddressError(errorMessage) {
            submitStatus := Status(true, Error, AddressRollback);
            activeStep := ServicesStepIndex;
            ActiveStepChanged();
          } else {
            submitStatus := Status(true, Error, SubmitFailed);
          }
      }
    }

    /** `handleFormDataChange`: `{...prev, ...newData}`; the two explicit re-assignments that
        follow it write what the spread already wrote. */
    method HandleFormDataChange(newData: FormPatch)
      modifies this`formData
      ensures formData == Merge(old(formData), newData)
    {
      var updatedData := Merge(formData, newData);
      if newData.additionalServices.Some? {
        updatedData := updatedData.(additionalServices := newData.additionalServices.value);
      }
      if newData.pickupAddress.Some? {
        updatedData := updatedData.(pickupAddress := newData.pickupAddress.value);
      }
      formData := updatedData;
    }

    /** `calculateOrderPrice(data)`: returns the price body it posts, `None` when `canCalculate`
        fails, in which case the price and its details are cleared. */
    method CalculateOrderPrice(data: FormData, outcome: PriceOutcome) returns (sent: Option<PriceRequest>)
      modifies this`orderPrice, this`priceDetails
      ensures sent.Some? <==> CanCalculate(data)
      ensures sent.Some? ==> sent.value == SrcClient.PriceRequestOf(data)
      ensures !CanCalculate(data) ==> orderPrice.None? && priceDetails.None?
      ensures CanCalculate(data) && outcome.Priced? ==>
                orderPrice == Some(outcome.totalPrice) &&
                priceDetails == if outcome.details.Some? then outcome.details else old(priceDetails)
      ensures CanCalculate(data) && outcome.PriceFailed? ==> orderPrice.None? && priceDetails.None?
    {
      if !CanCalculate(data) {
        orderPrice := None;
        priceDetails := None;
        sent := None;
        return;
      }
      sent := Some(SrcClient.PriceRequestOf(data));
      match outcome {
        case Priced(totalPrice, details) =>
          orderPrice := Some(totalPrice);
          if details.Some? {
            priceDetails := details;
          }
        case PriceFailed =>
          orderPrice := None;
          priceDetails := None;
      }
    }

    /** `handleNewOrder`: back to the first step with the record the wizard started from. */
    method HandleNewOrder()
      requires Valid()
      modifies this`isSuccess, this`activeStep, this`formData, this`validateStep, this`showErrors
      ensures Valid() && !isSuccess && activeStep == 0 && formData == Initial
      ensures old(activeStep) != 0 ==> validateStep && !showErrors
      ensures old(activeStep) == 0 ==> validateStep == old(validateStep) && showErrors == old(showErrors)
    {
      var previous := activeStep;
      isSuccess := false;
      activeStep := 0;
      formData := FormData(
        "", "", "", [], map[], [], [], BoxDims("", "", ""), "", "", "", "", "", "", "", "",
        "", "", "", "", [], "", "", None, None);
      if previous != 0 {
        ActiveStepChanged();
      }
    }

    /** `handleValidationChange`: the active step reports its validity. */
    method HandleValidationChange(isValid: bool)
      modifies this`isStepValid
      ensures isStepValid == isValid
    {
      isStepValid := isValid;
    }

    /** The `updateFormData` callback handed to the services step. */
    method ServicesStepUpdate(u: ServicesUpdate)
      modifies this`formData
      ensures ServicesPatch(old(formData), u).None? ==> formData == old(formData)
      ensures ServicesPatch(old(formData), u).Some? ==> formData == Merge(old(formData), ServicesPatch(old(formData), u).value)
    {
      var p := ServicesPatch(formData, u);
      if p.Some? {
        HandleFormDataChange(p.value);
      }
    }
  }
}
