/** What the request-handling core sees of the entity store: entity records,
    the fetch requests it submits, and the outcome of a submitted queue.
    The store itself and its client library are collaborators; a store is
    given to the model as a function from fetch request to outcome. */
module Store {

  datatype Option<T> = None | Some(value: T)

  /** An entity record as the store returns it: its id and, for an app
      session, the id of the user linked to it (`getUser()`). */
  datatype Entity = Entity(id: string, user: Option<string>)

  /** How a fetch request selects records: a `where` query in the store's
      query language, or `fetchId`. */
  datatype Selector = Where(query: string) | FetchId(id: string)

  /** One `ApiFetchRequest`: entity kind, selector and the relations left out
      of the result (`setIgnoreRelations`). */
  datatype FetchRequest = FetchRequest(entityName: string, selector: Selector, ignoreRelations: seq<string>)

  /** The store's answer to one request: an error, or the matching records
      (possibly none). */
  datatype Fetched = StoreError | Rows(rows: seq<Entity>)

  /** A store: the answer it gives to each request. */
  type Lookup = FetchRequest -> Fetched

  /** The single callback of `ApiFetchRequestQueue.performRequests`: an error
      when any request of the queue fails, else one result per request. */
  datatype Aggregate = AggregateError | AggregateRows(results: seq<seq<Entity>>)

  /** The outcome of submitting a queue of requests. An empty result is a
      result, not a failure. */
  function PerformRequests(requests: seq<FetchRequest>, store: Lookup): (r: Aggregate)
    ensures r.AggregateRows? <==> forall i :: 0 <= i < |requests| ==> store(requests[i]).Rows?
    ensures r.AggregateRows? ==> |r.results| == |requests|
    ensures r.AggregateRows? ==> forall i :: 0 <= i < |requests| ==> r.results[i] == store(requests[i]).rows
  {
    if requests == [] then AggregateRows([])
    else
      match store(requests[0])
      case StoreError => AggregateError
      case Rows(rows) =>
        match PerformRequests(requests[1..], store)
        case AggregateError => AggregateError
        case AggregateRows(more) => AggregateRows([rows] + more)
  }

  /** `ApiModel.findIdInArray`: the first entity of the list with the given id,
      or none. */
  function FindIdInArray(id: string, entities: seq<Entity>): (r: Option<Entity>)
    ensures r.Some? ==> r.value in entities && r.value.id == id
    ensures r.None? <==> forall e :: e in entities ==> e.id != id
    ensures r.Some? ==> exists k :: 0 <= k < |entities| && entities[k] == r.value &&
                          forall j :: 0 <= j < k ==> entities[j].id != id
  {
    if entities == [] then None
    else if entities[0].id == id then Some(entities[0])
    else FindIdInArray(id, entities[1..])
  }
}
