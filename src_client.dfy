/**
 * The request bodies of the main application's API client (src/api/client.tsx). The mapping is
 * the chat-bot client's, written again in this file: the counts hand `parseInt` the value itself
 * rather than `String(value)`, and an order body also carries `telegram_data`. Each function
 * here states how it relates to its counterpart in `WbClient`.
 */
module SrcClient {
  import opened Wrappers
  import opened Js
  import opened Form
  import opened Payload
  import WbClient

  function CargoType(types: seq<string>): (r: string)
    ensures r == WbClient.CargoType(types)
  {
    if PalletKind in types && BoxKind !in types then "pallet"
    else if PalletKind in types && BoxKind in types then "both"
    else "box"
  }

  /** The argument `parseInt` receives: a number or a string. */
  datatype CountArg = NumberArg(n: int) | StringArg(s: string)

  /** `ToString`, which `parseInt` applies to its argument first. */
  function ArgText(a: CountArg): string {
    match a
    case NumberArg(n) => NumberToString(n)
    case StringArg(s) => s
  }

  /** `quantities?.[kind] || legacy || '0'`. */
  function CountArgument(q: Quantities, kind: string, legacy: string): CountArg {
    if QuantityTruthy(q, kind) then NumberArg(q[kind].value)
    else if legacy != "" then StringArg(legacy)
    else StringArg("0")
  }

  /** Handing `parseInt` the number instead of its decimal text changes nothing. */
  function CountFor(f: FormData, kind: string, legacy: string): (r: Option<int>)
    ensures r == WbClient.CountFor(f, kind, legacy)
  {
    if kind in f.selectedTypes then ParseInt(ArgText(CountArgument(f.quantities, kind, legacy))) else Some(0)
  }

  function CargoOf(f: FormData): (c: Cargo)
    ensures c == WbClient.CargoOf(f)
  {
    var types := f.selectedTypes;
    var customBox := f.selectedBoxSizes != [] && f.selectedBoxSizes[0] == OtherSize;
    var customWeight := f.selectedPalletWeights != [] && f.selectedPalletWeights[0] == OtherWeight;
    Cargo(
      CargoType(types),
      if BoxKind in types then (if customBox then OtherSize else FirstOr(f.selectedBoxSizes)) else "",
      if PalletKind in types then (if customWeight then OtherWeight else FirstOr(f.selectedPalletWeights)) else "",
      CountFor(f, BoxKind, f.boxCount),
      CountFor(f, PalletKind, f.palletCount),
      Dimensions(
        if customBox then f.length else "",
        if customBox then f.width else "",
        if customBox then f.height else "",
        if customWeight then f.weight else ""))
  }

  /** `telegram_data`: `user_id || null`, `username || null`, so 0 and `''` are sent as `null`. */
  function TelegramDataOf(f: FormData): (t: TelegramData)
    ensures t.userId.None? <==> f.telegramUserId.None? || f.telegramUserId.value == 0
    ensures t.userId.Some? ==> t.userId == f.telegramUserId
    ensures t.username.None? <==> f.telegramUsername.None? || f.telegramUsername.value == ""
    ensures t.username.Some? ==> t.username == f.telegramUsername
  {
    TelegramData(
      if f.telegramUserId.Some? && f.telegramUserId.value != 0 then f.telegramUserId else None,
      if f.telegramUsername.Some? && f.telegramUsername.value != "" then f.telegramUsername else None)
  }

  function PriceRequestOf(f: FormData): (p: PriceRequest)
    ensures p == WbClient.PriceRequestOf(f)
  {
    PriceRequest(Delivery(f.warehouse, f.marketplace), CargoOf(f), f.additionalServices, f.pickupAddress)
  }

  /** The order body: the chat-bot client's, with `telegram_data` added. */
  function OrderRequestOf(f: FormData): (o: OrderRequest)
    ensures o.(telegram := None) == WbClient.OrderRequestOf(f)
    ensures o.telegram == Some(TelegramDataOf(f))
    ensures PricePart(o) == PriceRequestOf(f)
  {
    OrderRequest(
      Delivery(f.warehouse, f.marketplace),
      CargoOf(f),
      Client(f.clientName, f.phoneNumber, f.company, f.email),
      f.additionalServices,
      f.pickupAddress,
      Some(TelegramDataOf(f)))
  }

  function OrderErrorMessage(b: ErrorBody): (m: string)
    ensures m == WbClient.OrderErrorMessage(b)
  {
    if b.message != "" then b.message else if b.error != "" then b.error else "Failed to create order"
  }

  function PriceErrorMessage(b: ErrorBody): (m: string)
    ensures m == WbClient.PriceErrorMessage(b)
  {
    if b.error != "" then b.error else "Failed to calculate price"
  }
}
