/** Construction of BuyNow process managers, either from a persisted state or
    afresh for a triggering SkuPurchaseOrdered event. */
module BuyNowProcessManagerFactory {
  import opened Ids
  import opened Wrappers
  import opened UserAggregate

  /** The name of the BuyNow process's initial state. */
  const Initial: string := "Initial"

  /** The persisted state of one BuyNow process: its id and the name of the state it is in. */
  datatype BuyNowState = BuyNowState(id: Guid, currentStateName: string)

  /** A BuyNow process manager running over a state. */
  datatype ProcessManager = ProcessManager(state: BuyNowState)

  /** Recovery: a process manager over the given state, taken unchanged. */
  function Create(state: BuyNowState): (pm: ProcessManager)
    ensures pm.state == state
  {
    ProcessManager(state)
  }

  /** First start, triggered by `message`: a process manager in the initial
      state, with id `processId` when one is supplied and otherwise the fresh
      id `newId`. */
  function CreateNew(message: Event, processId: Option<Guid>, newId: Guid): (pm: ProcessManager)
    requires message.SkuPurchaseOrdered?
    ensures pm.state.currentStateName == Initial
    ensures processId.Some? ==> pm.state.id == processId.value
    ensures processId.None? ==> pm.state.id == newId
  {
    Create(BuyNowState(processId.GetOr(newId), Initial))
  }

  /** The triggering event contributes nothing to the new state: two events
      start the same process manager. */
  lemma CreateNewIgnoresMessage(m1: Event, m2: Event, processId: Option<Guid>, newId: Guid)
    requires m1.SkuPurchaseOrdered? && m2.SkuPurchaseOrdered?
    ensures CreateNew(m1, processId, newId) == CreateNew(m2, processId, newId)
  {
  }

  /** Starting afresh is recovering from the initial state with the chosen id,
      and that state survives recovery unchanged. */
  lemma CreateNewIsCreateOfInitial(message: Event, processId: Option<Guid>, newId: Guid)
    requires message.SkuPurchaseOrdered?
    ensures var pm := CreateNew(message, processId, newId);
      pm == Create(pm.state) && pm.state.currentStateName == Initial
      && pm.state.id == (if processId.Some? then processId.value else newId)
  {
  }
}
