/**
 * What one lookup task reports to the batch once its HTTP reply (or
 * transport failure) is in (integration.js:40-76).
 */
module Responses {
  import opened Wrappers
  import opened Json
  import opened Requests

  /** What the HTTP client hands the request callback. */
  datatype Response =
    | TransportFailure(cause: string)
    | Reply(status: int, body: Value)

  /** The error objects a task passes to `done`. */
  datatype TaskError =
    | RequestError(cause: string, entity: string)
    | RateLimited
    | UnexpectedStatus(httpStatus: int, body: Value, entity: string)

  /** The `{ entity, body }` object a successful task passes to `done`. */
  datatype TaskResult = TaskResult(entity: Entity, body: Value)

  /** The `detail` text of each error object. */
  function Detail(e: TaskError): string {
    match e
    case RequestError(_, _) => "Error in Request"
    case RateLimited => "Reached API Lookup Limit"
    case UnexpectedStatus(_, _, _) => "Unexpected Non 200 HTTP Status Code"
  }

  /** The indicator value an error object names; the rate-limit error names none. */
  function ErrorEntity(e: TaskError): Option<string> {
    match e
    case RequestError(_, entity) => Some(entity)
    case RateLimited => None
    case UnexpectedStatus(_, _, entity) => Some(entity)
  }

  /**
   * The request callback: a transport failure or any status other than 200
   * is an error for the batch (429 included); a 200 reply forwards the body
   * together with the indicator it answers.
   */
  function Classify(entity: Entity, response: Response): (r: Result<TaskResult, TaskError>)
    ensures r.Ok? <==> response.Reply? && response.status == 200
    ensures r.Ok? ==> r.value.entity == entity && r.value.body == response.body
    ensures response.TransportFailure? ==>
      r.Err? && r.error.RequestError? && r.error.cause == response.cause
    ensures r.Err? ==> (r.error.RateLimited? <==> response.Reply? && response.status == 429)
    ensures r.Err? && response.Reply? && response.status != 429 ==>
      r.error == UnexpectedStatus(response.status, response.body, entity.value)
    ensures r.Err? && !r.error.RateLimited? ==> ErrorEntity(r.error) == Some(entity.value)
  {
    match response
    case TransportFailure(cause) => Err(RequestError(cause, entity.value))
    case Reply(status, body) =>
      if status == 200 then Ok(TaskResult(entity, body))
      else if status == 429 then Err(RateLimited)
      else Err(UnexpectedStatus(status, body, entity.value))
  }

  /** `detail` names the reply's failure: no reply, a 429, or another non-200 status. */
  predicate DetailDescribes(detail: string, response: Response) {
    && (detail == "Error in Request" <==> response.TransportFailure?)
    && (detail == "Reached API Lookup Limit" <==> response.Reply? && response.status == 429)
    && (detail == "Unexpected Non 200 HTTP Status Code" <==>
        response.Reply? && response.status != 200 && response.status != 429)
  }

  /** The detail of the error a reply produces says which kind of failure the reply was. */
  lemma ErrorDetail(entity: Entity, response: Response)
    requires Classify(entity, response).Err?
    ensures DetailDescribes(Detail(Classify(entity, response).error), response)
  {
  }
}
