/** The order-details page (src/pages/OrderDetails.tsx): the load effect and what it keeps
    of the fetched order. */
module OrderDetails {
  import opened Wrappers
  import opened Types

  /** What `getOrderById(orderId)` settles with: the order or null, or a rejection. */
  datatype FetchResult = Fetched(found: Option<Order>) | FetchFailed(message: string)

  /** A fetch started by the effect: the order id and the uid of the user the effect saw. */
  datatype FetchRequest = FetchRequest(orderId: string, uid: string)

  const MissingOrderId := "Missing order ID."
  const OrderNotFound := "Order not found."
  const NoAccess := "You don't have access to this order."
  const LoadError := "Unable to load order details."

  class OrderDetailsView {
    var order: Option<Order>
    var isLoading: bool
    var error: Option<string>

    constructor ()
      ensures order == None && !isLoading && error == None
    {
      order, isLoading, error := None, false, None;
    }

    /** The effect for the signed-in `user` and the route parameter `orderId`; returns the
        fetch it starts, if any. */
    method RunEffect(user: Option<User>, orderId: Option<string>) returns (request: Option<FetchRequest>)
      modifies this
      ensures request.Some? <==> user.Some? && Truthy(orderId)
      ensures request.Some? ==>
                && request.value == FetchRequest(orderId.value, user.value.uid)
                && isLoading && error == None && order == old(order)
      ensures request.None? ==> order == None && !isLoading
      ensures !Truthy(orderId) ==> error == Some(MissingOrderId)
      ensures request.None? && Truthy(orderId) ==> error == old(error)
    {
      if user.None? || !Truthy(orderId) {
        order := None;
        isLoading := false;
        if !Truthy(orderId) {
          error := Some(MissingOrderId);
        }
        return None;
      }
      isLoading := true;
      error := None;
      request := Some(FetchRequest(orderId.value, user.value.uid));
    }

    /** The fetch started for `request` settles with `result`. The page applies it whether or
        not the effect has run again since. */
    method Complete(request: FetchRequest, result: FetchResult)
      modifies this
      ensures !isLoading
      ensures order != old(order) ==>
                result.Fetched? && result.found.Some? && order == result.found
                && result.found.value.userId == request.uid
      ensures result.Fetched? && result.found.Some? && result.found.value.userId == request.uid ==>
                order == result.found && error == old(error)
      ensures result == Fetched(None) ==> error == Some(OrderNotFound) && order == old(order)
      ensures result.Fetched? && result.found.Some? && result.found.value.userId != request.uid ==>
                error == Some(NoAccess) && order == old(order)
      ensures result.FetchFailed? ==>
                error == Some(OrElse(result.message, LoadError)) && order == old(order)
    {
      match result {
        case Fetched(found) =>
          if found.None? {
            error := Some(OrderNotFound);
          } else if found.value.userId != request.uid {
            error := Some(NoAccess);
          } else {
            order := found;
          }
        case FetchFailed(message) =>
          error := Some(OrElse(message, LoadError));
      }
      isLoading := false;
    }
  }
}
