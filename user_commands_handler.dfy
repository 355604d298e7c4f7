/** The command table of the User aggregate: which command constructs the
    aggregate and which aggregate method each other command calls. */
module UserCommandsHandler {
  import opened Ids
  import opened UserAggregate

  /** The commands addressed to a User; `userId` names the aggregate instance. */
  datatype Command =
    | CreateUserCommand(userId: Guid, login: string, accountId: Guid)
    | BuySkuNowCommand(userId: Guid, skuId: Guid, quantity: int, stockId: Guid)
    | CancelPendingOrderCommand(userId: Guid, orderId: Guid)
    | CompletePendingOrderCommand(userId: Guid, orderId: Guid)

  /** The command kinds, in the order the handler registers them. */
  datatype CommandKind = CreateUser | CompletePendingOrder | BuySkuNow | CancelPendingOrder

  const Registrations: seq<CommandKind> := [CreateUser, CompletePendingOrder, BuySkuNow, CancelPendingOrder]

  function Kind(c: Command): CommandKind {
    match c
    case CreateUserCommand(_, _, _) => CreateUser
    case BuySkuNowCommand(_, _, _, _) => BuySkuNow
    case CancelPendingOrderCommand(_, _) => CancelPendingOrder
    case CompletePendingOrderCommand(_, _) => CompletePendingOrder
  }

  /** What a registration does with a command: construct a new aggregate from
      it, or call a method of the aggregate already there. */
  datatype Handler = Construct(userId: Guid, login: string, accountId: Guid) | Invoke(call: Call)

  /** The registered handler of `c`. Only creation constructs, and it takes
      all three of its fields; the other commands reach the aggregate with the
      order id, or with sku, quantity and stock, and nothing else. */
  function Route(c: Command): (h: Handler)
    ensures h.Construct? <==> c.CreateUserCommand?
    ensures h.Construct? ==> h.userId == c.userId && h.login == c.login && h.accountId == c.accountId
    ensures c.BuySkuNowCommand? ==> h.call == BuyNowCall(c.skuId, c.quantity, c.stockId)
    ensures c.CancelPendingOrderCommand? ==> h.call == CancelOrderCall(c.orderId)
    ensures c.CompletePendingOrderCommand? ==> h.call == CompleteOrderCall(c.orderId)
  {
    match c
    case CreateUserCommand(userId, login, accountId) => Construct(userId, login, accountId)
    case CompletePendingOrderCommand(_, orderId) => Invoke(CompleteOrderCall(orderId))
    case BuySkuNowCommand(_, skuId, quantity, stockId) => Invoke(BuyNowCall(skuId, quantity, stockId))
    case CancelPendingOrderCommand(_, orderId) => Invoke(CancelOrderCall(orderId))
  }

  /** The command kind a handler is registered for: the constructor serves
      creation, and each aggregate method serves the command that names it. */
  function HandlerKind(h: Handler): CommandKind {
    match h
    case Construct(_, _, _) => CreateUser
    case Invoke(CompleteOrderCall(_)) => CompletePendingOrder
    case Invoke(BuyNowCall(_, _, _)) => BuySkuNow
    case Invoke(CancelOrderCall(_)) => CancelPendingOrder
  }

  /** Dispatch is by kind and each command reaches exactly one handler: the
      handler `Route` picks is the one registered for the command's kind, and
      that kind sits at exactly one place in the registration table. */
  lemma ExactlyOneRegistration(c: Command)
    ensures HandlerKind(Route(c)) == Kind(c)
    ensures exists i :: 0 <= i < |Registrations| && Registrations[i] == HandlerKind(Route(c))
    ensures forall i, j ::
      (0 <= i < |Registrations| && 0 <= j < |Registrations| &&
       Registrations[i] == Kind(c) && Registrations[j] == Kind(c)) ==> i == j
  {
    match c
    case CreateUserCommand(_, _, _) => assert Registrations[0] == Kind(c);
    case CompletePendingOrderCommand(_, _) => assert Registrations[1] == Kind(c);
    case BuySkuNowCommand(_, _, _, _) => assert Registrations[2] == Kind(c);
    case CancelPendingOrderCommand(_, _) => assert Registrations[3] == Kind(c);
  }

  /** The user id of a command only addresses the aggregate: commands that
      differ in it alone reach the aggregate identically, so the user (and the
      account) a purchase is made for come from the aggregate's own state. */
  lemma RouteIgnoresAddressee(c: Command, other: Guid)
    ensures c.BuySkuNowCommand? ==>
      Route(BuySkuNowCommand(other, c.skuId, c.quantity, c.stockId)) == Route(c)
    ensures c.CancelPendingOrderCommand? ==> Route(CancelPendingOrderCommand(other, c.orderId)) == Route(c)
    ensures c.CompletePendingOrderCommand? ==> Route(CompletePendingOrderCommand(other, c.orderId)) == Route(c)
  {
  }

  /** Handles `c`: a creation command builds a new aggregate; any other
      command runs its method on the `current` aggregate. `newOrderId` is the
      fresh id a purchase draws. */
  method Execute(c: Command, current: User?, newOrderId: Guid) returns (target: User)
    requires !c.CreateUserCommand? ==> current != null && current.Valid()
    modifies if c.CreateUserCommand? then {} else {current}
    ensures target.Valid()
    ensures c.CreateUserCommand? && current != null ==> unchanged(current)
    ensures c.CreateUserCommand? ==>
      && fresh(target) && target.history == []
      && target.produced == [UserCreated(c.userId, c.login, c.accountId)]
      && target.State() == UserState(c.userId, c.login, c.accountId, map[])
    ensures !c.CreateUserCommand? ==>
      var e := Decide(old(current.State()), Route(c).call, newOrderId);
      && target == current && target.history == old(current.history)
      && target.produced == old(current.produced) + [e]
      && target.State() == Evolve(old(current.State()), e)
  {
    match Route(c)
    case Construct(userId, login, accountId) =>
      target := new User(userId, login, accountId);
    case Invoke(call) =>
      target := current;
      match call
      case CompleteOrderCall(orderId) => target.CompleteOrder(orderId);
      case BuyNowCall(skuId, quantity, stockId) => target.BuyNow(skuId, quantity, stockId, newOrderId);
      case CancelOrderCall(orderId) => target.CancelOrder(orderId);
  }
}
