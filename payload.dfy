/**
 * The JSON bodies the two API clients send and the error body they read back, as values.
 * A count is the number `parseInt` produced, `None` for `NaN` (which `JSON.stringify` writes
 * as `null`).
 */
module Payload {
  import opened Wrappers
  import opened Form

  datatype Delivery = Delivery(warehouseId: string, marketplace: string)

  datatype Dimensions = Dimensions(length: string, width: string, height: string, weight: string)

  datatype Cargo = Cargo(
    cargoType: string,
    boxContainerType: string,
    palletContainerType: string,
    boxCount: Option<int>,
    palletCount: Option<int>,
    dimensions: Dimensions)

  datatype Client = Client(name: string, phone: string, company: string, email: string)

  /** `telegram_data`; `None` is `null`. */
  datatype TelegramData = TelegramData(userId: Option<int>, username: Option<string>)

  /** The body of `POST /orders/calculate-price/`. */
  datatype PriceRequest = PriceRequest(
    delivery: Delivery,
    cargo: Cargo,
    additionalServices: seq<ServiceId>,
    pickupAddress: string)

  /** The body of `POST /api/order/`; `telegram` is `None` when the body has no
      `telegram_data` key at all. */
  datatype OrderRequest = OrderRequest(
    delivery: Delivery,
    cargo: Cargo,
    client: Client,
    additionalServices: seq<ServiceId>,
    pickupAddress: string,
    telegram: Option<TelegramData>)

  /** The JSON a rejected call returns; a key that is absent (or not a non-empty string) is `""`. */
  datatype ErrorBody = ErrorBody(message: string, error: string)

  /** The parts of an order body that a price body also has, in the price body's shape. */
  function PricePart(o: OrderRequest): PriceRequest {
    PriceRequest(o.delivery, o.cargo, o.additionalServices, o.pickupAddress)
  }
}
