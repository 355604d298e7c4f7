/** The event-sourced User aggregate: its events, the state they build, and
    the aggregate object whose commands emit events and apply them to itself. */
module UserAggregate {
  import opened Ids

  /** An order placed by "buy now" that is neither completed nor canceled yet. */
  datatype PendingOrder = PendingOrder(order: Guid, skuId: Guid, quantity: int, stockId: Guid)

  datatype Event =
    | UserCreated(userId: Guid, login: string, accountId: Guid)
    | SkuPurchaseOrdered(userId: Guid, skuId: Guid, quantity: int, orderId: Guid, stockId: Guid, accountId: Guid)
    | PendingOrderCanceled(userId: Guid, orderId: Guid)
    | PendingOrderCompleted(userId: Guid, orderId: Guid)

  /** Everything an event can change in the aggregate. */
  datatype UserState = UserState(id: Guid, login: string, account: Guid, pendingOrders: map<Guid, PendingOrder>)

  /** A freshly allocated aggregate before any event is applied: every field at its default. */
  const Blank := UserState(EmptyGuid, "", EmptyGuid, map[])

  /** The aggregate methods a command can be mapped onto (everything but creation). */
  datatype Call =
    | BuyNowCall(skuId: Guid, quantity: int, stockId: Guid)
    | CancelOrderCall(orderId: Guid)
    | CompleteOrderCall(orderId: Guid)

  /** Applying one event to the state. */
  function Evolve(s: UserState, e: Event): UserState {
    match e
    case UserCreated(userId, login, accountId) => UserState(userId, login, accountId, map[])
    case SkuPurchaseOrdered(_, skuId, quantity, orderId, stockId, _) =>
      s.(pendingOrders := s.pendingOrders[orderId := PendingOrder(orderId, skuId, quantity, stockId)])
    case PendingOrderCanceled(_, orderId) => s.(pendingOrders := s.pendingOrders - {orderId})
    case PendingOrderCompleted(_, orderId) => s.(pendingOrders := s.pendingOrders - {orderId})
  }

  /** The state reached from `s` by applying `history` in order. */
  function Replayed(s: UserState, history: seq<Event>): UserState
    decreases |history|
  {
    if history == [] then s
    else Evolve(Replayed(s, history[..|history| - 1]), history[|history| - 1])
  }

  /** The event the aggregate in state `s` emits for `call`; `newOrderId` is
      the fresh order id a purchase draws. */
  function Decide(s: UserState, call: Call, newOrderId: Guid): (e: Event)
    ensures e.userId == s.id
    ensures !e.UserCreated?
  {
    match call
    case BuyNowCall(skuId, quantity, stockId) =>
      SkuPurchaseOrdered(s.id, skuId, quantity, newOrderId, stockId, s.account)
    case CancelOrderCall(orderId) => PendingOrderCanceled(s.id, orderId)
    case CompleteOrderCall(orderId) => PendingOrderCompleted(s.id, orderId)
  }

  /** `e` places order `o`. */
  predicate Opens(e: Event, o: Guid) {
    e.SkuPurchaseOrdered? && e.orderId == o
  }

  /** `e` takes order `o` out of the pending map: it completes or cancels it,
      or it (re)creates the user, which starts from no pending orders. */
  predicate Closes(e: Event, o: Guid) {
    match e
    case UserCreated(_, _, _) => true
    case SkuPurchaseOrdered(_, _, _, _, _, _) => false
    case PendingOrderCanceled(_, orderId) => orderId == o
    case PendingOrderCompleted(_, orderId) => orderId == o
  }

  /** Some event of `history` places `o` and no later one closes it. */
  ghost predicate OpenedAndNotClosed(history: seq<Event>, o: Guid) {
    exists i :: 0 <= i < |history| && Opens(history[i], o) && NotClosedFrom(history, o, i + 1)
  }

  ghost predicate NotClosedFrom(history: seq<Event>, o: Guid, from: nat) {
    forall j :: from <= j < |history| ==> !Closes(history[j], o)
  }

  /** Replaying one more event is applying it to the replayed state. */
  lemma ReplayedSnoc(s: UserState, history: seq<Event>, e: Event)
    ensures Replayed(s, history + [e]) == Evolve(Replayed(s, history), e)
  {
    assert (history + [e])[..|history|] == history;
  }

  /** Replaying a history in two pieces is replaying it at once: a state
      restored from a prefix and then fed the rest equals the state restored
      from the whole history. */
  lemma {:induction false} ReplayedAppend(s: UserState, h1: seq<Event>, h2: seq<Event>)
    ensures Replayed(s, h1 + h2) == Replayed(Replayed(s, h1), h2)
    decreases |h2|
  {
    if h2 != [] {
      var h := h1 + h2;
      assert h[..|h| - 1] == h1 + h2[..|h2| - 1];
      assert h[|h| - 1] == h2[|h2| - 1];
      ReplayedAppend(s, h1, h2[..|h2| - 1]);
    } else {
      assert h1 + h2 == h1;
    }
  }

  /** The pending-order invariant: after replaying `history` onto `s`, order
      `o` is pending exactly when `history` places it and does not close it
      afterwards, or it was already pending in `s` and `history` never closes it. */
  lemma {:induction false} PendingIffOpenedAndNotClosed(s: UserState, history: seq<Event>, o: Guid)
    ensures o in Replayed(s, history).pendingOrders
        <==> OpenedAndNotClosed(history, o) || (o in s.pendingOrders && NotClosedFrom(history, o, 0))
    decreases |history|
  {
    if history != [] {
      var n := |history| - 1;
      var prefix, e := history[..n], history[n];
      PendingIffOpenedAndNotClosed(s, prefix, o);
      if Opens(e, o) {
        assert NotClosedFrom(history, o, n + 1);
      } else if Closes(e, o) {
        assert !NotClosedFrom(history, o, 0);
        forall i | 0 <= i < |history| && Opens(history[i], o)
          ensures !NotClosedFrom(history, o, i + 1)
        {
          assert i < n;
        }
      } else {
        if OpenedAndNotClosed(prefix, o) {
          var i :| 0 <= i < |prefix| && Opens(prefix[i], o) && NotClosedFrom(prefix, o, i + 1);
          assert history[i] == prefix[i];
          assert NotClosedFrom(history, o, i + 1);
        }
        if OpenedAndNotClosed(history, o) {
          var i :| 0 <= i < |history| && Opens(history[i], o) && NotClosedFrom(history, o, i + 1);
          assert i < n && prefix[i] == history[i];
          assert NotClosedFrom(prefix, o, i + 1);
        }
        if NotClosedFrom(prefix, o, 0) {
          assert NotClosedFrom(history, o, 0);
        }
      }
    }
  }

  /** Events are safe under duplicate redelivery: applying the same event
      twice in a row has the effect of applying it once. */
  lemma EvolveIdempotent(s: UserState, e: Event)
    ensures Evolve(Evolve(s, e), e) == Evolve(s, e)
  {
  }

  /** Only creation touches identity, login and account; every other event
      changes the pending orders alone. */
  lemma EvolveKeepsIdentity(s: UserState, e: Event)
    requires !e.UserCreated?
    ensures Evolve(s, e).id == s.id && Evolve(s, e).login == s.login && Evolve(s, e).account == s.account
  {
  }

  /** Buying now emits SkuPurchaseOrdered for the aggregate's own user and
      account and records a pending order under the drawn order id with the
      call's sku, quantity and stock; no other pending order changes. */
  lemma BuyNowRecordsPendingOrder(s: UserState, skuId: Guid, quantity: int, stockId: Guid, newOrderId: Guid)
    ensures var e := Decide(s, BuyNowCall(skuId, quantity, stockId), newOrderId);
      && e.SkuPurchaseOrdered? && e.orderId == newOrderId && e.accountId == s.account
      && e.skuId == skuId && e.quantity == quantity && e.stockId == stockId
      && Evolve(s, e).pendingOrders == s.pendingOrders[newOrderId := PendingOrder(newOrderId, skuId, quantity, stockId)]
  {
  }

  /** Canceling or completing an order emits the matching event and leaves
      that order no longer pending, every other pending order as it was. */
  lemma CloseRemovesPendingOrder(s: UserState, call: Call, newOrderId: Guid)
    requires call.CancelOrderCall? || call.CompleteOrderCall?
    ensures var e := Decide(s, call, newOrderId);
      && e.orderId == call.orderId
      && (call.CancelOrderCall? <==> e.PendingOrderCanceled?)
      && Evolve(s, e).pendingOrders == s.pendingOrders - {call.orderId}
  {
  }

  /** Canceling a purchase undoes it: buying with a fresh order id and then
      canceling that order leaves the pending orders as they were. */
  lemma BuyThenCancelRestores(s: UserState, skuId: Guid, quantity: int, stockId: Guid, newOrderId: Guid)
    requires newOrderId !in s.pendingOrders
    ensures var bought := Evolve(s, Decide(s, BuyNowCall(skuId, quantity, stockId), newOrderId));
      Evolve(bought, Decide(bought, CancelOrderCall(newOrderId), newOrderId)) == s
  {
    var bought := Evolve(s, Decide(s, BuyNowCall(skuId, quantity, stockId), newOrderId));
    assert bought.pendingOrders - {newOrderId} == s.pendingOrders;
  }

  /** The User aggregate object. Commands emit an event and apply it to the
      object; the framework restores an object by applying persisted events. */
  class User {
    var id: Guid
    var login: string
    var account: Guid
    var pendingOrders: map<Guid, PendingOrder>
    /** Events emitted by commands since the object was created or restored, oldest first. */
    var produced: seq<Event>
    /** The persisted events the object was restored from. */
    ghost var history: seq<Event>

    function State(): UserState
      reads this
    {
      UserState(id, login, account, pendingOrders)
    }

    /** Event sourcing: the state is always the replay of every event, persisted and new. */
    ghost predicate Valid()
      reads this
    {
      State() == Replayed(Blank, history + produced)
    }

    /** Restores an aggregate by applying its persisted events, in order, to a blank one. */
    constructor Restore(events: seq<Event>)
      ensures Valid() && history == events && produced == []
      ensures State() == Replayed(Blank, events)
    {
      id, login, account, pendingOrders := EmptyGuid, "", EmptyGuid, map[];
      produced, history := [], [];
      new;
      var i := 0;
      while i < |events|
        invariant 0 <= i <= |events|
        invariant State() == Replayed(Blank, events[..i])
        invariant produced == []
      {
        Apply(events[i]);
        i := i + 1;
        assert events[..i][..i - 1] == events[..i - 1];
      }
      assert events[..i] == events;
      history := events;
      assert history + produced == events;
    }

    /** `new User(userId, login, accountId)`: creates the aggregate by emitting UserCreated. */
    constructor (userId: Guid, login: string, accountId: Guid)
      ensures Valid() && history == []
      ensures produced == [UserCreated(userId, login, accountId)]
      ensures id == userId && this.login == login && account == accountId && pendingOrders == map[]
    {
      id, this.login, account, pendingOrders := EmptyGuid, "", EmptyGuid, map[];
      produced, history := [], [];
      new;
      Emit(UserCreated(userId, login, accountId));
    }

    /** Applies one event to the fields. */
    method Apply(e: Event)
      modifies this
      ensures State() == Evolve(old(State()), e)
      ensures produced == old(produced) && history == old(history)
    {
      match e
      case UserCreated(userId, l, accountId) =>
        id, login, account, pendingOrders := userId, l, accountId, map[];
      case SkuPurchaseOrdered(_, skuId, quantity, orderId, stockId, _) =>
        pendingOrders := pendingOrders[orderId := PendingOrder(orderId, skuId, quantity, stockId)];
      case PendingOrderCanceled(_, orderId) =>
        pendingOrders := pendingOrders - {orderId};
      case PendingOrderCompleted(_, orderId) =>
        pendingOrders := pendingOrders - {orderId};
    }

    /** Records `e` as produced and applies it. */
    method Emit(e: Event)
      requires Valid()
      modifies this
      ensures Valid() && history == old(history)
      ensures produced == old(produced) + [e]
      ensures State() == Evolve(old(State()), e)
    {
      ghost var before := history + produced;
      ReplayedSnoc(Blank, before, e);
      Apply(e);
      produced := produced + [e];
      assert history + produced == before + [e];
    }

    /** Buys `quantity` of `skuId` from `stockId` now, under the fresh order id `newOrderId`. */
    method BuyNow(skuId: Guid, quantity: int, stockId: Guid, newOrderId: Guid)
      requires Valid()
      modifies this
      ensures Valid() && history == old(history)
      ensures produced == old(produced) + [SkuPurchaseOrdered(old(id), skuId, quantity, newOrderId, stockId, old(account))]
      ensures pendingOrders == old(pendingOrders)[newOrderId := PendingOrder(newOrderId, skuId, quantity, stockId)]
      ensures id == old(id) && login == old(login) && account == old(account)
    {
      Emit(Decide(State(), BuyNowCall(skuId, quantity, stockId), newOrderId));
    }

    method CancelOrder(orderId: Guid)
      requires Valid()
      modifies this
      ensures Valid() && history == old(history)
      ensures produced == old(produced) + [PendingOrderCanceled(old(id), orderId)]
      ensures pendingOrders == old(pendingOrders) - {orderId}
      ensures id == old(id) && login == old(login) && account == old(account)
    {
      Emit(Decide(State(), CancelOrderCall(orderId), EmptyGuid));  // no order id is drawn
    }

    method CompleteOrder(orderId: Guid)
      requires Valid()
      modifies this
      ensures Valid() && history == old(history)
      ensures produced == old(produced) + [PendingOrderCompleted(old(id), orderId)]
      ensures pendingOrders == old(pendingOrders) - {orderId}
      ensures id == old(id) && login == old(login) && account == old(account)
    {
      Emit(Decide(State(), CompleteOrderCall(orderId), EmptyGuid));  // no order id is drawn
    }
  }
}
