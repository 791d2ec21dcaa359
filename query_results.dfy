/**
 * The values that flow from an observable query into the reactive state of a
 * component: the envelope the server pushes and the state value the hooks
 * keep (`QueryResult` and `QueryResultWithState` in the repository).
 */
module QueryResults {

  /** The query's data type; the hooks never look inside it. */
  type Data = string

  /**
   * A query result envelope as pushed over the connection. Only the data and
   * the two flags the hooks inspect are modelled.
   */
  datatype QueryResult = QueryResult(data: Data, isSuccess: bool, hasExceptions: bool)

  /**
   * The reactive state value. `Initial` and `Empty` carry the query's default
   * value before anything is received; `Received` is built from an envelope
   * (`QueryResultWithState.fromQueryResult(response, false)`).
   */
  datatype QueryResultWithState =
    | Initial(defaultValue: Data)
    | Empty(defaultValue: Data)
    | Received(response: QueryResult, isPerforming: bool)
  {
    /** The data a component renders from this state. */
    function Shown(): Data {
      match this
      case Initial(d) => d
      case Empty(d) => d
      case Received(r, _) => r.data
    }
  }

  /** An envelope that signals an error: not successful, or carrying exceptions. */
  predicate SignalsFailure(r: QueryResult) {
    !r.isSuccess || r.hasExceptions
  }

  /**
   * A call a hook makes into the query layer: `subscribe` by the effect run
   * `generation`, or `unsubscribe` on the subscription numbered `subscription`
   * (subscriptions are numbered in the order `subscribe` returns them).
   */
  datatype Call = Subscribe(generation: nat) | Unsubscribe(subscription: nat)
}
