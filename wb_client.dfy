/**
 * The request bodies of the chat-bot build's API client (wb-bot-vite/src/api/client.ts):
 * `createOrder` and `calculatePrice` map the form record to JSON, and on a rejected call pick
 * the message of the thrown error. The `fetch` calls themselves are not part of this model.
 */
module WbClient {
  import opened Wrappers
  import opened Js
  import opened Form
  import opened Payload

  const OrderFailed := "Failed to create order"
  const PriceFailed := "Failed to calculate price"

  /** `cargo_type`: `'pallet'` for pallets without a box, `'both'` for both, `'box'` otherwise,
      the empty selection included. */
  function CargoType(types: seq<string>): (r: string)
    ensures r == "pallet" <==> PalletKind in types && BoxKind !in types
    ensures r == "both" <==> PalletKind in types && BoxKind in types
    ensures r == "box" <==> PalletKind !in types
  {
    if PalletKind in types && BoxKind !in types then "pallet"
    else if PalletKind in types && BoxKind in types then "both"
    else "box"
  }

  /** Only membership matters: reordering or repeating the selection keeps the discriminator. */
  lemma CargoTypeIgnoresOrder(a: seq<string>, b: seq<string>)
    requires forall x :: x in a <==> x in b
    ensures CargoType(a) == CargoType(b)
  {
    assert BoxKind in a <==> BoxKind in b;
    assert PalletKind in a <==> PalletKind in b;
  }

  /** `box_container_type` / `pallet_container_type`: `''` unless the kind is selected, and then
      the first choice (the sentinel passed through as itself), or `''` when there is none. */
  function ContainerTypeFor(types: seq<string>, kind: string, choices: seq<string>, sentinel: string): (r: string)
    ensures kind !in types ==> r == ""
    ensures kind in types ==> r == FirstOr(choices)
  {
    if kind in types then
      if choices != [] && choices[0] == sentinel then sentinel else FirstOr(choices)
    else ""
  }

  /** `String(quantities?.[kind] || legacy || '0')`: a truthy quantity reads back as itself,
      and the final fallback reads as zero. */
  function CountText(q: Quantities, kind: string, legacy: string): (r: string)
    ensures QuantityTruthy(q, kind) ==> ParseInt(r) == q[kind]
    ensures !QuantityTruthy(q, kind) && legacy != "" ==> r == legacy
    ensures !QuantityTruthy(q, kind) && legacy == "" ==> ParseInt(r) == Some(0)
  {
    if QuantityTruthy(q, kind) then
      ParseOfNumberToString(q[kind].value);
      NumberToString(q[kind].value)
    else if legacy != "" then legacy
    else
      assert ParseInt("0") == Some(0) by { ParseOfNumberToString(0); }
      "0"
  }

  /** `box_count` / `pallet_count`: 0 unless the kind is selected; then the kind's quantity when
      it is truthy, else the older count field read by `parseInt`, else 0. */
  function CountFor(f: FormData, kind: string, legacy: string): (r: Option<int>)
    ensures kind !in f.selectedTypes ==> r == Some(0)
    ensures kind in f.selectedTypes && QuantityTruthy(f.quantities, kind) ==> r == f.quantities[kind]
    ensures kind in f.selectedTypes && !QuantityTruthy(f.quantities, kind) && legacy != "" ==> r == ParseInt(legacy)
    ensures kind in f.selectedTypes && !QuantityTruthy(f.quantities, kind) && legacy == "" ==> r == Some(0)
  {
    if kind in f.selectedTypes then ParseInt(CountText(f.quantities, kind, legacy))
    else Some(0)
  }

  /** `dimensions`: the three box dimensions only when the first box size is the "other size"
      sentinel, and the weight only when the first weight class is the "other weight" sentinel. */
  function DimensionsOf(f: FormData): (d: Dimensions)
    ensures FirstOr(f.selectedBoxSizes) == OtherSize ==>
              d.length == f.length && d.width == f.width && d.height == f.height
    ensures FirstOr(f.selectedBoxSizes) != OtherSize ==> d.length == "" && d.width == "" && d.height == ""
    ensures d.weight == if FirstOr(f.selectedPalletWeights) == OtherWeight then f.weight else ""
  {
    var customBox := f.selectedBoxSizes != [] && f.selectedBoxSizes[0] == OtherSize;
    var customWeight := f.selectedPalletWeights != [] && f.selectedPalletWeights[0] == OtherWeight;
    Dimensions(
      if customBox then f.length else "",
      if customBox then f.width else "",
      if customBox then f.height else "",
      if customWeight then f.weight else "")
  }

  /** The `cargo` object: an unselected kind is sent with an empty container type and a zero
      count. */
  function CargoOf(f: FormData): (c: Cargo)
    ensures BoxKind !in f.selectedTypes ==> c.boxContainerType == "" && c.boxCount == Some(0)
    ensures PalletKind !in f.selectedTypes ==> c.palletContainerType == "" && c.palletCount == Some(0)
    ensures c.dimensions == DimensionsOf(f)
  {
    Cargo(
      CargoType(f.selectedTypes),
      ContainerTypeFor(f.selectedTypes, BoxKind, f.selectedBoxSizes, OtherSize),
      ContainerTypeFor(f.selectedTypes, PalletKind, f.selectedPalletWeights, OtherWeight),
      CountFor(f, BoxKind, f.boxCount),
      CountFor(f, PalletKind, f.palletCount),
      DimensionsOf(f))
  }

  /** The body `calculatePrice` posts. */
  function PriceRequestOf(f: FormData): (p: PriceRequest)
    ensures p.additionalServices == f.additionalServices && p.pickupAddress == f.pickupAddress
    ensures p.delivery.warehouseId == f.warehouse && p.delivery.marketplace == f.marketplace
  {
    PriceRequest(Delivery(f.warehouse, f.marketplace), CargoOf(f), f.additionalServices, f.pickupAddress)
  }

  /** The body `createOrder` posts: the price body's parts, plus the client's contact fields;
      this copy sends no `telegram_data`. */
  function OrderRequestOf(f: FormData): (o: OrderRequest)
    ensures PricePart(o) == PriceRequestOf(f)
    ensures o.client == Client(f.clientName, f.phoneNumber, f.company, f.email)
    ensures o.telegram.None?
  {
    OrderRequest(
      Delivery(f.warehouse, f.marketplace),
      CargoOf(f),
      Client(f.clientName, f.phoneNumber, f.company, f.email),
      f.additionalServices,
      f.pickupAddress,
      None)
  }

  /** `error.message || error.error || 'Failed to create order'`. */
  function OrderErrorMessage(b: ErrorBody): (m: string)
    ensures m != ""
    ensures b.message != "" ==> m == b.message
    ensures b.message == "" && b.error != "" ==> m == b.error
    ensures b.message == "" && b.error == "" ==> m == OrderFailed
  {
    if b.message != "" then b.message else if b.error != "" then b.error else OrderFailed
  }

  /** `error.error || 'Failed to calculate price'`: the price call ignores `message`. */
  function PriceErrorMessage(b: ErrorBody): (m: string)
    ensures m != ""
    ensures b.error != "" ==> m == b.error
    ensures b.error == "" ==> m == PriceFailed
  {
    if b.error != "" then b.error else PriceFailed
  }
}
