/**
 * The remote order/customer boundary. The network is not modelled: a
 * `Backend` records every request it is handed, and reports success whatever
 * the transport did, because the client posts in `no-cors` mode, cannot read
 * the reply, and swallows a failed fetch.
 */
module Api {
  /** One line of an order request: the item without its id. */
  datatype OrderItemPayload = OrderItemPayload(name: string, quantity: string, unit: string, size: string, price: string)

  datatype OrderPayload = OrderPayload(
    customer: string,
    orderDate: string,
    items: seq<OrderItemPayload>,
    receiveAccount: string,
    shippingFee: string,
    userRemittanceAccount: string,
    orderNumber: string,
    timeItem: string)

  datatype CustomerPayload = CustomerPayload(name: string, nickName: string, phone: string, address: string)

  /** A request as sent: its body and the caller's key. */
  datatype Request<P> = Request(body: P, authKey: string)

  /** What a create call reports to its caller: the client reports success on every path, so there is no other value. */
  datatype Status = Success

  class Backend {
    var orders: seq<Request<OrderPayload>>
    var customers: seq<Request<CustomerPayload>>

    constructor()
      ensures orders == [] && customers == []
    {
      orders, customers := [], [];
    }

    /** `createOrder`: one request is posted; `transportOk` is whether the fetch itself succeeded. */
    method CreateOrder(body: OrderPayload, authKey: string, transportOk: bool) returns (s: Status)
      modifies this`orders
      ensures orders == old(orders) + [Request(body, authKey)]
      ensures s == Success
    {
      orders := orders + [Request(body, authKey)];
      // a failed fetch is logged and success is reported all the same
      s := Success;
    }

    /** `createCustomer`: same delivery policy as `CreateOrder`. */
    method CreateCustomer(body: CustomerPayload, authKey: string, transportOk: bool) returns (s: Status)
      modifies this`customers
      ensures customers == old(customers) + [Request(body, authKey)]
      ensures s == Success
    {
      customers := customers + [Request(body, authKey)];
      s := Success;
    }
  }
}
