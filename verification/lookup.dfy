/**
 * `doLookup` (integration.js:20-140): one task per indicator, the batch of
 * tasks, and the aggregation of their results into the list handed to the
 * host. The concurrent `async.parallelLimit` is modelled as a sequential
 * left fold over the tasks.
 */
module Lookup {
  import opened Wrappers
  import opened Json
  import opened Requests
  import opened Responses
  import opened Normalization

  /** A queued lookup: the indicator and the request made for it. */
  datatype Task = Task(entity: Entity, request: Request)

  /** What the host's callback receives, or the exception that escapes instead. */
  datatype Outcome =
    | Done(results: seq<LookupResult>)
    | Failed(error: TaskError)
    | Threw(exception: TypeError)

  /** The `entities.forEach` loop: one task per indicator, in order. */
  method PrepareTasks(entities: seq<Entity>, options: Options) returns (tasks: seq<Task>)
    ensures |tasks| == |entities|
    ensures forall i :: 0 <= i < |entities| ==>
      tasks[i].entity == entities[i] && tasks[i].request == BuildRequest(entities[i], options)
  {
    tasks := [];
    var k := 0;
    while k < |entities|
      invariant 0 <= k <= |entities|
      invariant |tasks| == k
      invariant forall i :: 0 <= i < k ==>
        tasks[i].entity == entities[i] && tasks[i].request == BuildRequest(entities[i], options)
    {
      tasks := tasks + [Task(entities[k], BuildRequest(entities[k], options))];
      k := k + 1;
    }
  }

  /** Running one task: send its request through `client` and classify the reply. */
  function Settle(task: Task, client: Request -> Response): Result<TaskResult, TaskError> {
    Classify(task.entity, client(task.request))
  }

  /**
   * The batch: every task's result in task order, or the error of the first
   * task that fails; no result list exists once one has failed.
   */
  function RunTasks(tasks: seq<Task>, client: Request -> Response): (r: Result<seq<TaskResult>, TaskError>)
    ensures r.Ok? <==> forall i :: 0 <= i < |tasks| ==> Settle(tasks[i], client).Ok?
    ensures r.Ok? ==> |r.value| == |tasks|
    ensures r.Ok? ==> forall i :: 0 <= i < |tasks| ==> Settle(tasks[i], client) == Ok(r.value[i])
    ensures r.Err? ==> exists i :: (0 <= i < |tasks| && Settle(tasks[i], client) == Err(r.error)
      && forall j :: 0 <= j < i ==> Settle(tasks[j], client).Ok?)
    decreases |tasks|
  {
    if |tasks| == 0 then Ok([])
    else
      var n := |tasks| - 1;
      assert forall j :: 0 <= j < n ==> tasks[..n][j] == tasks[j];
      match RunTasks(tasks[..n], client)
      case Err(e) => Err(e)
      case Ok(done) =>
        match Settle(tasks[n], client)
        case Err(e) => Err(e)
        case Ok(last) => Ok(done + [last])
  }

  /**
   * The `results.forEach` loop: one lookup result per task result, in order,
   * unless normalising a hit throws, which ends the loop at the first such hit.
   */
  function Aggregate(results: seq<TaskResult>, rt: Runtime): (r: Result<seq<LookupResult>, TypeError>)
    ensures r.Ok? <==> forall i :: 0 <= i < |results| ==> Normalize(results[i], rt).Ok?
    ensures r.Ok? ==> |r.value| == |results|
    ensures r.Ok? ==> forall i :: 0 <= i < |results| ==> Normalize(results[i], rt) == Ok(r.value[i])
    ensures r.Err? ==> exists i :: (0 <= i < |results| && Normalize(results[i], rt) == Err(r.error)
      && forall j :: 0 <= j < i ==> Normalize(results[j], rt).Ok?)
    decreases |results|
  {
    if |results| == 0 then Ok([])
    else
      var n := |results| - 1;
      assert forall j :: 0 <= j < n ==> results[..n][j] == results[j];
      match Aggregate(results[..n], rt)
      case Err(e) => Err(e)
      case Ok(done) =>
        match Normalize(results[n], rt)
        case Err(e) => Err(e)
        case Ok(last) => Ok(done + [last])
  }

  /** The reply `client` gives to the request for `entity`. */
  function ReplyFor(entity: Entity, options: Options, client: Request -> Response): Response {
    client(BuildRequest(entity, options))
  }

  /**
   * `doLookup`: either one lookup result per indicator, in input order, each
   * the normalised reply body (a miss exactly when it is `null` or `[]`); or the error of a
   * failing request, where a transport failure, a 429 and any other non-200
   * status all abort the batch; or the TypeError of a hit whose bucket has
   * no `includes` or whose `size` or `creation_date` has no primitive.
   */
  method DoLookup(entities: seq<Entity>, options: Options, client: Request -> Response, rt: Runtime)
    returns (outcome: Outcome)
    ensures outcome.Done? ==> |outcome.results| == |entities|
    ensures outcome.Done? ==> forall i :: 0 <= i < |entities| ==>
      outcome.results[i].entity == entities[i]
      && ReplyFor(entities[i], options, client).Reply?
      && ReplyFor(entities[i], options, client).status == 200
      && (outcome.results[i].data.None? <==>
          ReplyFor(entities[i], options, client).body in {Null, Arr([])})
    ensures outcome.Done? ==> forall i :: 0 <= i < |entities| ==>
      Normalize(TaskResult(entities[i], ReplyFor(entities[i], options, client).body), rt) == Ok(outcome.results[i])
    ensures outcome.Failed? <==> exists i :: (0 <= i < |entities| &&
      Classify(entities[i], ReplyFor(entities[i], options, client)).Err?)
    ensures outcome.Failed? ==> exists i :: (0 <= i < |entities| &&
      Classify(entities[i], ReplyFor(entities[i], options, client)) == Err(outcome.error))
    ensures forall i :: 0 <= i < |entities| && ReplyFor(entities[i], options, client).TransportFailure? ==>
      outcome.Failed?
    ensures forall i :: (0 <= i < |entities| && ReplyFor(entities[i], options, client).Reply? &&
      ReplyFor(entities[i], options, client).status == 429) ==> outcome.Failed?
    ensures outcome.Threw? ==> exists i :: (0 <= i < |entities| &&
      ReplyFor(entities[i], options, client).Reply? &&
      HitThrows(ReplyFor(entities[i], options, client).body))
    ensures (forall i :: 0 <= i < |entities| ==> Classify(entities[i], ReplyFor(entities[i], options, client)).Ok?)
      && (exists i :: (0 <= i < |entities| &&
          Normalize(TaskResult(entities[i], ReplyFor(entities[i], options, client).body), rt).Err?))
      ==> outcome.Threw?
  {
    var tasks := PrepareTasks(entities, options);
    match RunTasks(tasks, client)
    case Err(e) =>
      outcome := Failed(e);
    case Ok(results) =>
      match Aggregate(results, rt)
      case Err(e) =>
        outcome := Threw(e);
      case Ok(lookupResults) =>
        outcome := Done(lookupResults);
  }

  /**
   * The `detail` of a batch error tells what went wrong with the first
   * failing request: no reply at all, a 429, or some other non-200 status.
   */
  lemma BatchErrorDetail(tasks: seq<Task>, client: Request -> Response)
    requires RunTasks(tasks, client).Err?
    ensures exists i :: (0 <= i < |tasks|
      && (forall j :: 0 <= j < i ==> Settle(tasks[j], client).Ok?)
      && DetailDescribes(Detail(RunTasks(tasks, client).error), client(tasks[i].request)))
  {
    var e := RunTasks(tasks, client).error;
    var i :| 0 <= i < |tasks| && Settle(tasks[i], client) == Err(e)
      && forall j :: 0 <= j < i ==> Settle(tasks[j], client).Ok?;
    ErrorDetail(tasks[i].entity, client(tasks[i].request));
  }
}
