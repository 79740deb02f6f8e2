/**
 * The order form's record (`FormData` of src/components/Calculator.tsx), the partial updates
 * the steps propose (`Partial<FormData>`), and the controller's shallow merge of one into the
 * other (`{...prev, ...newData}`).
 *
 * A string field that JavaScript could leave `undefined` is `""` here: every consumer of such a
 * field reads it as `field || ''`, so the two are indistinguishable to the form.
 */
module Form {
  import opened Wrappers

  /** The cargo kinds and size/weight sentinels the steps and the API client compare against. */
  const BoxKind := "Коробка"
  const PalletKind := "Паллета"
  const OtherSize := "Другой размер"
  const OtherWeight := "Другой вес"

  /** An additional-service identifier: the ids are `string | number` and compared with `===`. */
  datatype ServiceId = StrId(s: string) | NumId(n: int)

  datatype BoxDims = BoxDims(length: string, width: string, height: string)

  /** Quantity per cargo kind. A key that is absent is `undefined`; `None` is the `NaN` that
      `parseInt` gives for a field that does not start with a number. */
  type Quantities = map<string, Option<int>>

  datatype FormData = FormData(
    marketplace: string,
    warehouse: string,
    cargoType: string,
    selectedTypes: seq<string>,
    quantities: Quantities,
    selectedBoxSizes: seq<string>,
    selectedPalletWeights: seq<string>,
    customBoxSize: BoxDims,
    customPalletWeight: string,
    boxCount: string,
    palletCount: string,
    length: string,
    width: string,
    height: string,
    weight: string,
    containerType: string,
    clientName: string,
    phoneNumber: string,
    company: string,
    email: string,
    additionalServices: seq<ServiceId>,
    pickupAddress: string,
    deliveryWarehouse: string,
    telegramUserId: Option<int>,
    telegramUsername: Option<string>)

  /** The record the wizard starts from and returns to on "new order": every string empty, every
      list and map empty; `email` and the chat-platform fields are not set. */
  const Initial: FormData := FormData(
    "", "", "", [], map[], [], [], BoxDims("", "", ""), "", "", "", "", "", "", "", "",
    "", "", "", "", [], "", "", None, None)

  /** JavaScript truthiness of `quantities?.[kind]`: present, a number, and not 0. */
  predicate QuantityTruthy(q: Quantities, kind: string) {
    kind in q && q[kind].Some? && q[kind].value != 0
  }

  /** `xs?.[0] || ''`: the first element, or `''` for an empty list. */
  function FirstOr(xs: seq<string>): string {
    if xs == [] then "" else xs[0]
  }

  // ---------------------------------------------------------------- partial updates

  /** A partial update: `Some` for each key the update object carries. */
  datatype FormPatch = FormPatch(
    marketplace: Option<string>,
    warehouse: Option<string>,
    cargoType: Option<string>,
    selectedTypes: Option<seq<string>>,
    quantities: Option<Quantities>,
    selectedBoxSizes: Option<seq<string>>,
    selectedPalletWeights: Option<seq<string>>,
    customBoxSize: Option<BoxDims>,
    customPalletWeight: Option<string>,
    boxCount: Option<string>,
    palletCount: Option<string>,
    length: Option<string>,
    width: Option<string>,
    height: Option<string>,
    weight: Option<string>,
    containerType: Option<string>,
    clientName: Option<string>,
    phoneNumber: Option<string>,
    company: Option<string>,
    email: Option<string>,
    additionalServices: Option<seq<ServiceId>>,
    pickupAddress: Option<string>,
    deliveryWarehouse: Option<string>,
    telegramUserId: Option<Option<int>>,
    telegramUsername: Option<Option<string>>)

  /** The update object `{}`. */
  const NoChange: FormPatch := FormPatch(
    None, None, None, None, None, None, None, None, None, None, None, None, None, None, None,
    None, None, None, None, None, None, None, None, None, None)

  /** The record viewed as a JavaScript object: one key per field. */
  datatype Key =
    | MarketplaceKey | WarehouseKey | CargoTypeKey | SelectedTypesKey | QuantitiesKey
    | SelectedBoxSizesKey | SelectedPalletWeightsKey | CustomBoxSizeKey | CustomPalletWeightKey
    | BoxCountKey | PalletCountKey | LengthKey | WidthKey | HeightKey | WeightKey
    | ContainerTypeKey | ClientNameKey | PhoneNumberKey | CompanyKey | EmailKey
    | AdditionalServicesKey | PickupAddressKey | DeliveryWarehouseKey
    | TelegramUserIdKey | TelegramUsernameKey

  datatype Value =
    | Text(s: string) | Texts(ss: seq<string>) | Counts(q: Quantities) | Dims(d: BoxDims)
    | Ids(ids: seq<ServiceId>) | MaybeInt(i: Option<int>) | MaybeText(t: Option<string>)

  /** `record[key]`. */
  function Get(d: FormData, k: Key): Value {
    match k
    case MarketplaceKey => Text(d.marketplace)
    case WarehouseKey => Text(d.warehouse)
    case CargoTypeKey => Text(d.cargoType)
    case SelectedTypesKey => Texts(d.selectedTypes)
    case QuantitiesKey => Counts(d.quantities)
    case SelectedBoxSizesKey => Texts(d.selectedBoxSizes)
    case SelectedPalletWeightsKey => Texts(d.selectedPalletWeights)
    case CustomBoxSizeKey => Dims(d.customBoxSize)
    case CustomPalletWeightKey => Text(d.customPalletWeight)
    case BoxCountKey => Text(d.boxCount)
    case PalletCountKey => Text(d.palletCount)
    case LengthKey => Text(d.length)
    case WidthKey => Text(d.width)
    case HeightKey => Text(d.height)
    case WeightKey => Text(d.weight)
    case ContainerTypeKey => Text(d.containerType)
    case ClientNameKey => Text(d.clientName)
    case PhoneNumberKey => Text(d.phoneNumber)
    case CompanyKey => Text(d.company)
    case EmailKey => Text(d.email)
    case AdditionalServicesKey => Ids(d.additionalServices)
    case PickupAddressKey => Text(d.pickupAddress)
    case DeliveryWarehouseKey => Text(d.deliveryWarehouse)
    case TelegramUserIdKey => MaybeInt(d.telegramUserId)
    case TelegramUsernameKey => MaybeText(d.telegramUsername)
  }

  /** `key in update ? update[key] : undefined`. */
  function Lookup(p: FormPatch, k: Key): Option<Value> {
    match k
    case MarketplaceKey => if p.marketplace.Some? then Some(Text(p.marketplace.value)) else None
    case WarehouseKey => if p.warehouse.Some? then Some(Text(p.warehouse.value)) else None
    case CargoTypeKey => if p.cargoType.Some? then Some(Text(p.cargoType.value)) else None
    case SelectedTypesKey => if p.selectedTypes.Some? then Some(Texts(p.selectedTypes.value)) else None
    case QuantitiesKey => if p.quantities.Some? then Some(Counts(p.quantities.value)) else None
    case SelectedBoxSizesKey => if p.selectedBoxSizes.Some? then Some(Texts(p.selectedBoxSizes.value)) else None
    case SelectedPalletWeightsKey => if p.selectedPalletWeights.Some? then Some(Texts(p.selectedPalletWeights.value)) else None
    case CustomBoxSizeKey => if p.customBoxSize.Some? then Some(Dims(p.customBoxSize.value)) else None
    case CustomPalletWeightKey => if p.customPalletWeight.Some? then Some(Text(p.customPalletWeight.value)) else None
    case BoxCountKey => if p.boxCount.Some? then Some(Text(p.boxCount.value)) else None
    case PalletCountKey => if p.palletCount.Some? then Some(Text(p.palletCount.value)) else None
    case LengthKey => if p.length.Some? then Some(Text(p.length.value)) else None
    case WidthKey => if p.width.Some? then Some(Text(p.width.value)) else None
    case HeightKey => if p.height.Some? then Some(Text(p.height.value)) else None
    case WeightKey => if p.weight.Some? then Some(Text(p.weight.value)) else None
    case ContainerTypeKey => if p.containerType.Some? then Some(Text(p.containerType.value)) else None
    case ClientNameKey => if p.clientName.Some? then Some(Text(p.clientName.value)) else None
    case PhoneNumberKey => if p.phoneNumber.Some? then Some(Text(p.phoneNumber.value)) else None
    case CompanyKey => if p.company.Some? then Some(Text(p.company.value)) else None
    case EmailKey => if p.email.Some? then Some(Text(p.email.value)) else None
    case AdditionalServicesKey => if p.additionalServices.Some? then Some(Ids(p.additionalServices.value)) else None
    case PickupAddressKey => if p.pickupAddress.Some? then Some(Text(p.pickupAddress.value)) else None
    case DeliveryWarehouseKey => if p.deliveryWarehouse.Some? then Some(Text(p.deliveryWarehouse.value)) else None
    case TelegramUserIdKey => if p.telegramUserId.Some? then Some(MaybeInt(p.telegramUserId.value)) else None
    case TelegramUsernameKey => if p.telegramUsername.Some? then Some(MaybeText(p.telegramUsername.value)) else None
  }

  /** The update carries no key at all (`Object.keys(update).length === 0`). */
  predicate IsEmpty(p: FormPatch) {
    p == NoChange
  }

  /** `{...prev, ...update}`: every key the update carries is overwritten by the update's
      value, and every other key keeps the value it had. */
  function Merge(prev: FormData, p: FormPatch): FormData {
    FormData(
      p.marketplace.GetOr(prev.marketplace),
      p.warehouse.GetOr(prev.warehouse),
      p.cargoType.GetOr(prev.cargoType),
      p.selectedTypes.GetOr(prev.selectedTypes),
      p.quantities.GetOr(prev.quantities),
      p.selectedBoxSizes.GetOr(prev.selectedBoxSizes),
      p.selectedPalletWeights.GetOr(prev.selectedPalletWeights),
      p.customBoxSize.GetOr(prev.customBoxSize),
      p.customPalletWeight.GetOr(prev.customPalletWeight),
      p.boxCount.GetOr(prev.boxCount),
      p.palletCount.GetOr(prev.palletCount),
      p.length.GetOr(prev.length),
      p.width.GetOr(prev.width),
      p.height.GetOr(prev.height),
      p.weight.GetOr(prev.weight),
      p.containerType.GetOr(prev.containerType),
      p.clientName.GetOr(prev.clientName),
      p.phoneNumber.GetOr(prev.phoneNumber),
      p.company.GetOr(prev.company),
      p.email.GetOr(prev.email),
      p.additionalServices.GetOr(prev.additionalServices),
      p.pickupAddress.GetOr(prev.pickupAddress),
      p.deliveryWarehouse.GetOr(prev.deliveryWarehouse),
      p.telegramUserId.GetOr(prev.telegramUserId),
      p.telegramUsername.GetOr(prev.telegramUsername))
  }

  /** The merge seen key by key: the update's value where it has one, the old value elsewhere. */
  lemma MergeAt(prev: FormData, p: FormPatch, k: Key)
    ensures Get(Merge(prev, p), k) == Lookup(p, k).GetOr(Get(prev, k))
  {
  }

  /** `{...prev, ...update}` overwrites exactly the keys the update carries. */
  lemma MergeOverwritesExactly(prev: FormData, p: FormPatch)
    ensures forall k :: Lookup(p, k).Some? ==> Get(Merge(prev, p), k) == Lookup(p, k).value
    ensures forall k :: Lookup(p, k).None? ==> Get(Merge(prev, p), k) == Get(prev, k)
  {
    forall k ensures Get(Merge(prev, p), k) == Lookup(p, k).GetOr(Get(prev, k)) {
      MergeAt(prev, p, k);
    }
  }

  /** An update that carries no key leaves the record as it is. */
  lemma MergeEmpty(prev: FormData, p: FormPatch)
    requires IsEmpty(p)
    ensures Merge(prev, p) == prev
  {
  }

  /** `update` applied after `first`, written as one update: the later value wins on a shared key. */
  function Then(first: FormPatch, second: FormPatch): FormPatch {
    FormPatch(
      if second.marketplace.Some? then second.marketplace else first.marketplace,
      if second.warehouse.Some? then second.warehouse else first.warehouse,
      if second.cargoType.Some? then second.cargoType else first.cargoType,
      if second.selectedTypes.Some? then second.selectedTypes else first.selectedTypes,
      if second.quantities.Some? then second.quantities else first.quantities,
      if second.selectedBoxSizes.Some? then second.selectedBoxSizes else first.selectedBoxSizes,
      if second.selectedPalletWeights.Some? then second.selectedPalletWeights else first.selectedPalletWeights,
      if second.customBoxSize.Some? then second.customBoxSize else first.customBoxSize,
      if second.customPalletWeight.Some? then second.customPalletWeight else first.customPalletWeight,
      if second.boxCount.Some? then second.boxCount else first.boxCount,
      if second.palletCount.Some? then second.palletCount else first.palletCount,
      if second.length.Some? then second.length else first.length,
      if second.width.Some? then second.width else first.width,
      if second.height.Some? then second.height else first.height,
      if second.weight.Some? then second.weight else first.weight,
      if second.containerType.Some? then second.containerType else first.containerType,
      if second.clientName.Some? then second.clientName else first.clientName,
      if second.phoneNumber.Some? then second.phoneNumber else first.phoneNumber,
      if second.company.Some? then second.company else first.company,
      if second.email.Some? then second.email else first.email,
      if second.additionalServices.Some? then second.additionalServices else first.additionalServices,
      if second.pickupAddress.Some? then second.pickupAddress else first.pickupAddress,
      if second.deliveryWarehouse.Some? then second.deliveryWarehouse else first.deliveryWarehouse,
      if second.telegramUserId.Some? then second.telegramUserId else first.telegramUserId,
      if second.telegramUsername.Some? then second.telegramUsername else first.telegramUsername)
  }

  /** Two merges in a row are one merge of the combined update. */
  lemma MergeThen(prev: FormData, first: FormPatch, second: FormPatch)
    ensures Merge(Merge(prev, first), second) == Merge(prev, Then(first, second))
  {
  }

  /** Merging the same update twice changes nothing the second time. */
  lemma MergeIdempotent(prev: FormData, p: FormPatch)
    ensures Merge(Merge(prev, p), p) == Merge(prev, p)
  {
  }

  // ---------------------------------------------------------------- the services step's callback

  /** What the additional-services step hands to its `updateFormData` callback: an object that
      may carry `additionalServices` and `pickupAddress` (`None` where the key is absent), or,
      in the older calling convention, the bare list of selected ids. */
  datatype ServicesUpdate =
    | Fields(services: Option<seq<ServiceId>>, address: Option<string>)
    | List(ids: seq<ServiceId>)
}
