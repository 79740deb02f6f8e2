/**
 * Concrete runs of the model: examples of the cargo rules, the price check, the
 * address requirement, and a whole order placed through the controller.
 */
module Scenarios {
  import opened Wrappers
  import opened Js
  import opened Form
  import opened Catalog
  import opened Payload
  import CargoStep
  import ServicesStep
  import WbServicesStep
  import WbClient
  import SrcClient
  import opened Calculator

  /** The discriminator for the four possible selections. */
  lemma CargoTypeExamples()
    ensures WbClient.CargoType([BoxKind]) == "box"
    ensures WbClient.CargoType([PalletKind]) == "pallet"
    ensures WbClient.CargoType([BoxKind, PalletKind]) == "both"
    ensures WbClient.CargoType([PalletKind, BoxKind]) == "both"
    ensures WbClient.CargoType([]) == "box"
  {
  }

  /** A selected kind's quantity passes exactly when it is a number of at least 1. */
  lemma QuantityExamples(q: Quantities, kind: string, n: int)
    requires kind in q && q[kind] == Some(n)
    ensures CargoStep.QuantityBad(q, kind) <==> n < 1
    ensures CargoStep.QuantityBad(q[kind := None], kind)
    ensures CargoStep.QuantityBad(map k | k in q && k != kind :: q[k], kind)
  {
  }

  /** A custom box of 60 x 40 x 40 cm passes; a zero in any dimension fails. */
  lemma CustomBoxExamples(pf: FloatParser)
    requires pf("60") == Some(60.0) && pf("40") == Some(40.0) && pf("0") == Some(0.0)
    ensures !CargoStep.DimsBad(BoxDims("60", "40", "40"), pf)
    ensures CargoStep.DimsBad(BoxDims("0", "40", "40"), pf)
    ensures CargoStep.DimsBad(BoxDims("60", "0", "40"), pf)
    ensures CargoStep.DimsBad(BoxDims("60", "40", "0"), pf)
    ensures CargoStep.DimsBad(BoxDims("60", "", "40"), pf)
  {
  }

  /** The validator's weight bounds are inclusive: 500 and 1000 kg pass, 499 and 1001 fail. */
  lemma CustomWeightExamples(pf: FloatParser)
    requires pf("500") == Some(500.0) && pf("1000") == Some(1000.0)
    requires pf("499") == Some(499.0) && pf("1001") == Some(1001.0)
    ensures !CargoStep.WeightBad("500", pf) && !CargoStep.WeightBad("1000", pf)
    ensures CargoStep.WeightBad("499", pf) && CargoStep.WeightBad("1001", pf)
    ensures CargoStep.WeightBad("", pf)
    ensures CargoStep.WeightDerivable("499", pf) && !CargoStep.WeightDerivable("1001", pf)
  {
  }

  /** Text `parseFloat` cannot read is not caught by the validator's custom checks. */
  lemma NonNumericCustomExamples(pf: FloatParser)
    requires pf("abc") == None
    ensures !CargoStep.WeightBad("abc", pf)
    ensures !CargoStep.DimsBad(BoxDims("abc", "abc", "abc"), pf)
  {
  }

  /** A marketplace without a warehouse is never priced. */
  lemma PriceNeedsWarehouse(f: FormData)
    requires f.marketplace != "" && f.warehouse == ""
    ensures !CanCalculate(f)
  {
  }

  /** A sample Ozon order after the four steps. */
  function OzonOrder(): FormData {
    Initial.(
      marketplace := "Ozon", warehouse := "Moscow-1",
      selectedTypes := [BoxKind], quantities := map[BoxKind := Some(3)],
      selectedBoxSizes := ["40x40x60"],
      clientName := "Ivan", phoneNumber := "+70000000000")
  }

  /** The Ozon order passes the cargo step, can be priced, passes the submit check, and posts a
      box cargo of three "40x40x60" boxes without dimensions. */
  lemma OzonOrderPayload(pf: FloatParser)
    ensures CargoStep.CargoValid(OzonOrder(), BoxDims("", "", ""), "", pf)
    ensures CanCalculate(OzonOrder())
    ensures MissingFields(OzonOrder()) == []
    ensures SrcClient.OrderRequestOf(OzonOrder()).cargo ==
              Cargo("box", "40x40x60", "", Some(3), Some(0), Dimensions("", "", "", ""))
    ensures SrcClient.OrderRequestOf(OzonOrder()).client == Client("Ivan", "+70000000000", "", "")
  {
    OzonOrderComplete();
  }

  /** The Ozon order has every field the submit-time check requires. */
  lemma OzonOrderComplete()
    ensures MissingFields(OzonOrder()) == []
  {
    var f := OzonOrder();
    assert !IsBlank(f.selectedTypes[0]) by { assert !IsWhitespace(BoxKind[0]); }
    assert !IsBlank(f.phoneNumber) by { assert !IsWhitespace(f.phoneNumber[0]); }
    assert !IsBlank(f.clientName) by { assert !IsWhitespace(f.clientName[0]); }
    NothingMissingIffFilled(f);
  }

  /** The user's part of the Ozon order: each step is filled in and reports itself valid, and
      the main button moves on, up to the contact step. */
  method EnterOzonOrder(c: Controller)
    requires c.Valid() && c.activeStep == 0 && c.formData == Initial
    modifies c
    ensures c.Valid() && c.activeStep == StepCount - 1 && c.isStepValid && c.formData == OzonOrder()
  {
    c.HandleFormDataChange(NoChange.(marketplace := Some("Ozon"), warehouse := Some("Moscow-1")));
    c.HandleValidationChange(true);
    c.HandleNext();
    c.HandleFormDataChange(NoChange.(selectedTypes := Some([BoxKind]),
                                     quantities := Some(map[BoxKind := Some(3)]),
                                     selectedBoxSizes := Some(["40x40x60"])));
    ghost var afterCargo := c.formData;
    c.HandleValidationChange(true);
    c.HandleNext();
    c.HandleValidationChange(true);
    c.HandleNext();
    assert c.formData == afterCargo;
    c.HandleFormDataChange(NoChange.(clientName := Some("Ivan"), phoneNumber := Some("+70000000000")));
    c.HandleValidationChange(true);
  }

  /** The Ozon order placed through the controller and confirmed by the server: the body posted
      is the Ozon body, and the confirmation opens with the server's response. */
  method PlaceOzonOrder(response: OrderResponse) returns (sent: Option<OrderRequest>, success: bool, shown: Option<OrderResponse>)
    ensures sent == Some(SrcClient.OrderRequestOf(OzonOrder()))
    ensures success && shown == Some(response)
  {
    OzonOrderComplete();
    var c := new Controller();
    EnterOzonOrder(c);
    sent := c.HandleSubmit(Created(response));
    success := c.isSuccess;
    shown := c.orderResponse;
  }

  /** Trying to leave a step that reports itself invalid keeps the user there and shows the errors. */
  method BlockedStep() returns (step: int, errorsShown: bool, status: Status)
    ensures step == 0 && errorsShown && status == Status(true, Error, NextBlocked)
  {
    var c := new Controller();
    c.HandleValidationChange(false);
    c.HandleNext();
    step, errorsShown, status := c.activeStep, c.showErrors, c.submitStatus;
  }

  const Pickup := Service(NumId(1), "Забор груза", "1000", true)
  const Wrapping := Service(NumId(2), "Упаковка", "300", false)
  const Groups := [ServiceGroup("Услуги", [Pickup, Wrapping])]

  /** The example catalog resolves id 1 to the pickup service and id 2 to wrapping. */
  lemma GroupsLookups()
    ensures Find(Flatten(Groups), NumId(1)) == Some(Pickup)
    ensures Find(Flatten(Groups), NumId(2)) == Some(Wrapping)
  {
    assert Flatten(Groups) == [Pickup, Wrapping];
    assert FirstIndex(Flatten(Groups), NumId(1)) == 0;
    assert FirstIndex(Flatten(Groups), NumId(2)) == 1;
  }

  /** Selecting the pickup service with no address fails the step; typing an address fixes it;
      with only the service that needs no location selected, no address is needed. */
  lemma AddressRequirementExamples()
    ensures ServicesStep.AddressErrors(Groups, [NumId(1)], "") != map[]
    ensures ServicesStep.AddressErrors(Groups, [NumId(1)], "  ") != map[]
    ensures ServicesStep.AddressErrors(Groups, [NumId(1)], "Москва") == map[]
    ensures ServicesStep.AddressErrors(Groups, [NumId(2)], "") == map[]
    ensures ServicesStep.AddressErrors(Groups, [NumId(3)], "") == map[]
  {
    GroupsLookups();
    AnyRequiresLocationIff(Groups, [NumId(1)]);
    AnyRequiresLocationIff(Groups, [NumId(2)]);
    UnknownIdsNeedNoLocation(Groups, [NumId(3)]);
    assert !IsBlank("Москва") by { assert !IsWhitespace("Москва"[0]); }
  }

  /** Unchecking pickup out of pickup and wrapping leaves wrapping alone, which needs no
      location, so the toggle emits `''` whatever the local address. */
  lemma DeselectPickupUpdate(address: string)
    ensures !AnyRequiresLocation(Groups, [NumId(2)])
    ensures ServicesStep.ToggleUpdate(Groups, address, [NumId(1), NumId(2)], NumId(1), false) ==
            Fields(Some([NumId(2)]), Some(""))
  {
    GroupsLookups();
    AnyRequiresLocationIff(Groups, [NumId(2)]);
    assert Without([NumId(1), NumId(2)], NumId(1)) == [NumId(2)];
  }

  /** Deselecting the pickup service while wrapping stays selected: the chat-bot copy of the
      step empties its own address, the main copy keeps it, and the main controller, fed the
      main copy's update (which carries `''`), keeps the address it has stored. */
  method DeselectPickup(f: FormData) returns (wbAddress: string, mainAddress: string, stored: string)
    requires f.additionalServices == [NumId(1), NumId(2)] && f.pickupAddress == "Москва"
    ensures wbAddress == "" && mainAddress == "Москва" && stored == "Москва"
  {
    DeselectPickupUpdate(f.pickupAddress);
    var wb := new WbServicesStep.Step(f.pickupAddress);
    wb.CatalogLoaded(Groups);
    var u := wb.HandleServiceChange(f.additionalServices, NumId(1), false);
    wbAddress := wb.address;
    var main := new ServicesStep.Step(f.pickupAddress);
    main.CatalogLoaded(Groups);
    var v := main.HandleServiceChange(f.additionalServices, NumId(1), false);
    mainAddress := main.address;
    var c := new Controller();
    c.HandleFormDataChange(NoChange.(additionalServices := Some(f.additionalServices),
                                     pickupAddress := Some(f.pickupAddress)));
    c.ServicesStepUpdate(v);
    stored := c.formData.pickupAddress;
    assert IsBlank("");
  }
}
