/** The User aggregate's Given/When/Then scenarios: given persisted events,
    when a command is handled, then these events are produced and the
    aggregate is in this state. */
module UserScenarios {
  import opened Ids
  import opened UserAggregate
  import opened UserCommandsHandler

  /** Given a created user, buying now produces exactly one SkuPurchaseOrdered
      for that user and account, and the order is pending under its order id. */
  method BuyNowAfterCreation(userId: Guid, login: string, account: Guid,
                             skuId: Guid, quantity: int, stockId: Guid, newOrderId: Guid)
    returns (events: seq<Event>, pending: map<Guid, PendingOrder>)
    ensures events == [SkuPurchaseOrdered(userId, skuId, quantity, newOrderId, stockId, account)]
    ensures newOrderId in pending
    ensures pending[newOrderId].quantity == quantity && pending[newOrderId].skuId == skuId
    ensures pending[newOrderId].order == events[0].orderId
    ensures pending.Keys == {newOrderId}
  {
    var user := new User.Restore([UserCreated(userId, login, account)]);
    var target := Execute(BuySkuNowCommand(userId, skuId, quantity, stockId), user, newOrderId);
    events, pending := target.produced, target.pendingOrders;
  }

  /** Given a user with one pending order, canceling it produces
      PendingOrderCanceled and leaves no pending order. */
  method CancelAfterPurchase(userId: Guid, login: string, account: Guid,
                             skuId: Guid, quantity: int, orderId: Guid, stockId: Guid)
    returns (events: seq<Event>, pending: map<Guid, PendingOrder>)
    ensures events == [PendingOrderCanceled(userId, orderId)]
    ensures pending == map[]
  {
    var user := new User.Restore([UserCreated(userId, login, account),
                                  SkuPurchaseOrdered(userId, skuId, quantity, orderId, stockId, account)]);
    var target := Execute(CancelPendingOrderCommand(userId, orderId), user, EmptyGuid);
    events, pending := target.produced, target.pendingOrders;
  }

  /** Given a user with one pending order, completing it produces
      PendingOrderCompleted and leaves no pending order. */
  method CompleteAfterPurchase(userId: Guid, login: string, account: Guid,
                               skuId: Guid, quantity: int, orderId: Guid, stockId: Guid)
    returns (events: seq<Event>, pending: map<Guid, PendingOrder>)
    ensures events == [PendingOrderCompleted(userId, orderId)]
    ensures pending == map[]
  {
    var user := new User.Restore([UserCreated(userId, login, account),
                                  SkuPurchaseOrdered(userId, skuId, quantity, orderId, stockId, account)]);
    var target := Execute(CompletePendingOrderCommand(userId, orderId), user, EmptyGuid);
    events, pending := target.produced, target.pendingOrders;
  }

  /** With no history, the creation command produces UserCreated and the new
      aggregate carries the command's login, account and id. */
  method CreateByCommand(userId: Guid, login: string, accountId: Guid)
    returns (events: seq<Event>, state: UserState)
    ensures events == [UserCreated(userId, login, accountId)]
    ensures state.login == login && state.account == accountId && state.id == userId
    ensures state.pendingOrders == map[]
  {
    var target := Execute(CreateUserCommand(userId, login, accountId), null, EmptyGuid);
    events, state := target.produced, target.State();
  }
}
