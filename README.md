# GridDomain.Shop: User aggregate, price calculator and BuyNow factory

This project models the core of the shop's purchase workflow and proves properties of the model in Dafny.

- **User aggregate** (`user_aggregate.dfy`, module `UserAggregate`). This is an event-sourced aggregate. Its state has an id, a login, an account and a map from order id to pending order. Four events change that state:
  - `UserCreated` sets the identity and starts with no pending orders.
  - `SkuPurchaseOrdered` records a pending order under its order id.
  - `PendingOrderCanceled` and `PendingOrderCompleted` remove the order.

  `Evolve` applies one event and `Replayed` applies a whole history. The `User` class keeps the fields that the source updates in place. Every command method emits one event through `Emit` and applies it to the object. `Valid()` states the event-sourcing invariant: the object's state is the replay of its persisted history followed by the events it has produced since.
- **Command handler** (`user_commands_handler.dfy`). There are four commands. `Route` maps each one onto its registration:
  - `CreateUserCommand` constructs a new aggregate.
  - `BuySkuNowCommand`, `CancelPendingOrderCommand` and `CompletePendingOrderCommand` call `BuyNow`, `CancelOrder` and `CompleteOrder` on the existing aggregate.

  `Execute` runs the chosen handler.
- **Scenarios** (`user_scenarios.dfy`). Each unit-test scenario ("given these events, when this command, then these events and this state") is a method. The method builds its own aggregate and proves the outcome for all inputs.
- **In-memory price calculator** (`price_calculator.dfy`). This is a class over a map from sku id to unit price. `CalculatePrice` fails with `SkuPriceNotFound` for an unknown sku and otherwise returns unit price × quantity. `Add` inserts a price or overwrites the existing one.
- **BuyNow process-manager factory** (`buy_now_factory.dfy`). `Create` wraps a persisted `BuyNowState` unchanged. `CreateNew` starts a process in state `"Initial"`. Its id is the supplied process id, or a fresh one when none is supplied.

Two helper modules hold shared types. `ids.dfy` has `Guid`, a 128-bit identifier. `wrappers.dfy` has `Option` and `Result`.

Two behaviours follow the code rather than how such a workflow is often described:
- A BuyNow process is often described as keyed by the order id, with the purchase's user, sku, quantity, stock and account copied into its state. `CreateNew` does neither. It uses `processId ?? Guid.NewGuid()` and copies nothing from the message, and the model does the same.
- An aggregate like this one often rejects a duplicate creation, a non-positive quantity or an unknown order id. Nothing in the modelled handler or tests establishes such checks, so the aggregate here never rejects a command.

## Model

| member | source | states |
|---|---|---|
| UserCommandsHandler.Route | Shop.Domain/Aggregates/UserAggregate/UserCommandsHandler.cs:10-16 | only `CreateUserCommand` constructs an aggregate, from its user id, login and account id; complete and cancel call `CompleteOrder`/`CancelOrder` with exactly the command's order id; buy-now calls `BuyNow` with exactly sku, quantity and stock |
| UserCommandsHandler.ExactlyOneRegistration | Shop.Domain/Aggregates/UserAggregate/UserCommandsHandler.cs:10-16 | the handler `Route` picks for a command is the one registered for that command's kind, and that kind occurs exactly once among the four registrations, so each command reaches exactly one handler |
| UserCommandsHandler.RouteIgnoresAddressee | Shop.Domain/Aggregates/UserAggregate/UserCommandsHandler.cs:12-16 | for the three non-creation commands the user id only addresses the aggregate: changing it does not change the call the aggregate receives |
| UserCommandsHandler.Execute | Shop.Domain/Aggregates/UserAggregate/UserCommandsHandler.cs:10-16 | creation yields a fresh aggregate and leaves any existing aggregate untouched; the fresh aggregate has produced events `[UserCreated(id, login, account)]` and that identity and no pending orders; any other command runs on the existing aggregate, appends exactly the event `Decide` gives for the routed call and applies it; the event-sourcing invariant holds afterwards |
| UserAggregate.Decide | Shop.Tests.Unit/UserAggregate/User_created_tests.cs:31-33 | every event an aggregate method emits is addressed to the aggregate's own user id and is never a creation event |
| UserAggregate.BuyNowRecordsPendingOrder | Shop.Tests.Unit/UserAggregate/User_created_tests.cs:30-41 | buy-now emits `SkuPurchaseOrdered` with the drawn order id, the call's sku, quantity and stock and the account from state; applying it records `PendingOrder(orderId, sku, quantity, stock)` at that id and changes no other entry |
| UserAggregate.CloseRemovesPendingOrder | Shop.Tests.Unit/UserAggregate/User_created_tests.cs:54-86 | cancel emits `PendingOrderCanceled` and complete emits `PendingOrderCompleted` for exactly the given order id; applying it removes that id from the pending orders and keeps every other entry |
| UserAggregate.BuyThenCancelRestores | Shop.Tests.Unit/UserAggregate/User_created_tests.cs:44-63 | buying under a fresh order id and then canceling that order gives back exactly the state before the purchase |
| UserAggregate.EvolveIdempotent | Shop.Tests.Unit/UserAggregate/User_created_tests.cs:55-56 | applying any event twice in a row equals applying it once, so redelivery of an event does not create a second pending order |
| UserAggregate.EvolveKeepsIdentity | Shop.Tests.Unit/UserAggregate/User_created_tests.cs:31-33 | only `UserCreated` changes id, login and account; every other event leaves them alone |
| UserAggregate.ReplayedSnoc | Shop.Tests.Unit/UserAggregate/User_created_tests.cs:55-57 | replaying one more event equals applying that event to the state the earlier events built |
| UserAggregate.ReplayedAppend | Shop.Tests.Unit/UserAggregate/User_created_tests.cs:54-60 | replaying a history in two parts (given events, then the new ones) equals replaying the whole history at once |
| UserAggregate.PendingIffOpenedAndNotClosed | Shop.Tests.Unit/UserAggregate/User_created_tests.cs:36-86 | after a replay, an order id is pending if and only if the history places that order and nothing later closes it (cancel, complete, re-creation), or it was pending before and the history never closes it |
| UserAggregate.User.Restore | Shop.Tests.Unit/UserAggregate/User_created_tests.cs:54-56 | an aggregate restored from persisted events has the state of their replay onto a blank aggregate and has produced nothing |
| UserAggregate.User.constructor | Shop.Domain/Aggregates/UserAggregate/UserCommandsHandler.cs:10 | `new User(id, login, account)` produces exactly `UserCreated(id, login, account)` and has that id, login and account and no pending orders |
| UserAggregate.User.Apply | Shop.Tests.Unit/UserAggregate/User_created_tests.cs:55-56 | applying an event sets the object's state to `Evolve` of its old state and records no produced event |
| UserAggregate.User.Emit | Shop.Tests.Unit/UserAggregate/User_created_tests.cs:30-34 | an emitted event is appended to the produced events and applied, and the event-sourcing invariant is kept |
| UserAggregate.User.BuyNow | Shop.Tests.Unit/UserAggregate/User_created_tests.cs:30-41 | appends `SkuPurchaseOrdered(id, sku, quantity, newOrderId, stock, account)` with id and account from state, records the pending order under `newOrderId` and keeps id, login and account |
| UserAggregate.User.CancelOrder | Shop.Tests.Unit/UserAggregate/User_created_tests.cs:54-63 | appends `PendingOrderCanceled(id, orderId)` and removes `orderId` from the pending orders |
| UserAggregate.User.CompleteOrder | Shop.Tests.Unit/UserAggregate/User_created_tests.cs:76-86 | appends `PendingOrderCompleted(id, orderId)` and removes `orderId` from the pending orders |
| UserScenarios.BuyNowAfterCreation | Shop.Tests.Unit/UserAggregate/User_created_tests.cs:22-42 | given `UserCreated`, buy-now produces exactly one `SkuPurchaseOrdered` carrying the created account, and the only pending order sits at the emitted order id with the command's quantity and sku |
| UserScenarios.CancelAfterPurchase | Shop.Tests.Unit/UserAggregate/User_created_tests.cs:44-64 | given a created user with one ordered purchase, cancel produces exactly `PendingOrderCanceled(user, order)` and leaves no pending order |
| UserScenarios.CompleteAfterPurchase | Shop.Tests.Unit/UserAggregate/User_created_tests.cs:66-87 | given a created user with one ordered purchase, complete produces exactly `PendingOrderCompleted(user, order)` and leaves no pending order |
| UserScenarios.CreateByCommand | Shop.Tests.Unit/UserAggregate/User_created_tests.cs:89-103 | with no history, the creation command produces exactly `UserCreated` and the aggregate has the command's login, account and id |
| PriceCalculator.InMemoryPriceCalculator.constructor | Shop.Tests.Unit/DomainServices/InMemoryPriceCalculator.cs:11 | a new calculator has an empty price table |
| PriceCalculator.InMemoryPriceCalculator.CalculatePrice | Shop.Tests.Unit/DomainServices/InMemoryPriceCalculator.cs:13-19 | fails with `SkuPriceNotFound(sku)` if and only if the sku has no price; otherwise returns unit price × quantity; changes nothing |
| PriceCalculator.InMemoryPriceCalculator.Add | Shop.Tests.Unit/DomainServices/InMemoryPriceCalculator.cs:21-24 | the table afterwards maps the sku to the new price, overwriting any earlier one, and every other sku keeps its presence and price |
| PriceCalculator.PriceAfterAdd | Shop.Tests.Unit/DomainServices/InMemoryPriceCalculator.cs:13-24 | `Add(sku, m)` followed by `CalculatePrice(sku, q)` succeeds with `m * q` |
| PriceCalculator.AddKeepsOtherPrices | Shop.Tests.Unit/DomainServices/InMemoryPriceCalculator.cs:13-24 | the quote for any other sku is the same before and after `Add` |
| PriceCalculator.EmptyCalculatorFindsNoPrice | Shop.Tests.Unit/DomainServices/InMemoryPriceCalculator.cs:11-16 | a new calculator fails every quote with `SkuPriceNotFound` |
| BuyNowProcessManagerFactory.Create | Shop.Domain/ProcessManagers/BuyNowProcessManagerFactory.cs:22-25 | the process manager runs over exactly the given state |
| BuyNowProcessManagerFactory.CreateNew | Shop.Domain/ProcessManagers/BuyNowProcessManagerFactory.cs:27-30 | the new state is named `"Initial"`; its id is the supplied process id when there is one and the fresh id otherwise |
| BuyNowProcessManagerFactory.CreateNewIgnoresMessage | Shop.Domain/ProcessManagers/BuyNowProcessManagerFactory.cs:27-29 | the triggering event contributes nothing: any two triggering events start the same process manager |
| BuyNowProcessManagerFactory.CreateNewIsCreateOfInitial | Shop.Domain/ProcessManagers/BuyNowProcessManagerFactory.cs:22-29 | `CreateNew` is `Create` over the state (chosen id, `"Initial"`) |

## Left out

- The `User` class source is not part of this model. Its behaviour comes from the scenarios in `User_created_tests.cs`. The model adds no checks that those scenarios do not show: it rejects no duplicate creation, no non-positive quantity and no unknown order id. Canceling or completing an unknown order emits its event, and the removal does nothing.
- `Guid.NewGuid()`: the order id that buy-now draws and the process id that `CreateNew` draws are parameters (`newOrderId`, `newId`). Freshness is assumed only where a lemma needs it (`BuyThenCancelRestores`).
- The GridDomain framework is foreign code and is not modelled: the base class of the command handler, event persistence and routing, and the scenario runner. `Execute` and `User.Restore` stand in for the framework's dispatch and replay.
- `ProcessManager<BuyNowState>` is reduced to the state it holds. It also holds the BuyNow process definition, the price calculator and the logger, which are left out. The BuyNow transitions (price lookup, then complete or cancel) are not part of this model because their source is not shown.
- `CalculatePrice` returns a `Task`; the model returns the result synchronously, and the thrown exception becomes a `Failure`.
- `Money` (NMoneys) is an integer amount in minor units. The model ignores currency and decimal arithmetic, including the `OverflowException` that a very large product would raise.
- Quantities are unbounded integers rather than 32-bit `int`. The aggregate never computes with them. The price product is the only arithmetic, and it is unbounded.
- Concurrent reads of the price table are not modelled.
- Service hosting and logging setup (`Shop.Node/Program.cs`) and the empty web controller (`Shop.Web/Controllers/Domain/SkuStockController.cs`) are left out because they hold no logic.
