/** The job records of the routing service: created `running` at progress 0, moved to
    `processing` at 10, and finished as `done` or `error` at 100. */
module Jobs {

  import opened Wrappers
  import opened Strategies
  import opened Routes
  import opened Service

  /** The values a job record holds. */
  datatype Value =
    | Null
    | Text(text: string)
    | Number(number: int)
    | Routing(formatted: Formatted)
    | Request(warehouses: seq<Warehouse>, orders: seq<Order>)

  /** A job record: a dictionary from field names to values. */
  type Job = map<string, Value>

  /** `job.update(fields)`: the fields given overwrite, every other field stays. */
  function Merge(job: Job, fields: Job): (job': Job)
    ensures forall key :: key in job' <==> key in job || key in fields
    ensures forall key :: key in fields ==> job'[key] == fields[key]
    ensures forall key :: key in job && key !in fields ==> job'[key] == job[key]
  {
    job + fields
  }

  /** The record a new job starts with. */
  function NewJob(payload: Value, strategy: string): Job
  {
    map["status" := Text("running"), "progress" := Number(0), "result" := Null, "error" := Null,
        "payload" := payload, "strategy" := Text(strategy)]
  }

  /** The fields written when the worker picks the job up. */
  function Processing(): Job
  {
    map["status" := Text("processing"), "progress" := Number(10)]
  }

  /** The fields written when the worker finishes: the prepared data, or the message of the
      exception followed by a newline and the traceback text `tb`. */
  function Finished(outcome: Result<Option<Formatted>, string>, tb: string): Job
  {
    match outcome
    case Ok(prepared) =>
      map["status" := Text("done"), "progress" := Number(100),
          "result" := (if prepared.Some? then Routing(prepared.value) else Null), "error" := Null]
    case Err(e) =>
      map["status" := Text("error"), "progress" := Number(100), "result" := Null, "error" := Text(e + "\n" + tb)]
  }

  /** The job dictionary `JOBS`. */
  class JobStore {
    var jobs: map<string, Job>

    constructor ()
      ensures jobs == map[]
    {
      jobs := map[];
    }

    /** The record of `id`, empty when there is none. */
    function Get(id: string): Job
      reads this
    {
      if id in jobs then jobs[id] else map[]
    }

    /** `update_job(id, **fields)`: merge the fields into the record (a fresh one when there is
        none), store it and return it. */
    method UpdateJob(id: string, fields: Job) returns (job: Job)
      modifies this
      ensures jobs == old(jobs)[id := Merge(old(Get(id)), fields)]
      ensures job == jobs[id]
    {
      job := Get(id);
      job := job + fields;
      jobs := jobs[id := job];
    }

    /** The request handler's registration of a new job. */
    method CreateJob(id: string, payload: Value, strategy: string)
      modifies this
      ensures jobs == old(jobs)[id := NewJob(payload, strategy)]
    {
      jobs := jobs[id := NewJob(payload, strategy)];
    }

    /** `solve_routing_job`: mark the job as processing, run `prepare_data` on the payload's
        warehouses and orders, and record the outcome. */
    method SolveRoutingJob(id: string, ws: array<Warehouse>, orders: seq<Order>, strategy: string,
                           dist: Distance, tb: string)
      modifies this, ws
      ensures var (ws', outcome) := PrepareSpec(old(ws[..]), orders, strategy, dist);
        && ws[..] == ws'
        && jobs == old(jobs)[id := Merge(Merge(old(Get(id)), Processing()), Finished(outcome, tb))]
    {
      var _ := UpdateJob(id, Processing());
      var prepared := PrepareData(ws, orders, strategy, dist);
      var _ := UpdateJob(id, Finished(prepared, tb));
    }
  }

  /** A new job is `running` at progress 0 with neither result nor error; picking it up makes it
      `processing` at 10 and keeps its payload and strategy; finishing makes it `done` at 100
      with no error when `prepare_data` returned, and `error` at 100 with no result and the
      exception text when it raised, still keeping payload and strategy. */
  lemma Lifecycle(payload: Value, strategy: string, outcome: Result<Option<Formatted>, string>, tb: string)
    ensures var created := NewJob(payload, strategy);
      var picked := Merge(created, Processing());
      var finished := Merge(picked, Finished(outcome, tb));
      && created["status"] == Text("running") && created["progress"] == Number(0)
      && created["result"] == Null && created["error"] == Null
      && picked["status"] == Text("processing") && picked["progress"] == Number(10)
      && picked["result"] == Null && picked["error"] == Null
      && finished["progress"] == Number(100)
      && (finished["status"] == Text("done") <==> outcome.Ok?)
      && (finished["status"] == Text("error") <==> outcome.Err?)
      && (outcome.Ok? ==> finished["error"] == Null)
      && (outcome.Err? ==> finished["result"] == Null && finished["error"] == Text(outcome.error + "\n" + tb))
      && (forall key :: key in {"payload", "strategy"} ==> picked[key] == created[key] && finished[key] == created[key])
  {
  }

  /** A job created for a request and then solved keeps the request as its payload, and ends
      `done` when the request had warehouses and orders, and `error` with the matching message
      otherwise. */
  lemma SolvedJobStatus(ws: seq<Warehouse>, orders: seq<Order>, strategy: string, dist: Distance, tb: string)
    ensures var outcome := PrepareSpec(ws, orders, strategy, dist).1;
      var finished := Merge(Merge(NewJob(Request(ws, orders), strategy), Processing()), Finished(outcome, tb));
      && finished["payload"] == Request(ws, orders)
      && (finished["status"] == Text("done") <==> ws != [] && orders != [])
      && (ws == [] ==> finished["error"] == Text(NoWarehouses + "\n" + tb))
      && (ws != [] && orders == [] ==> finished["error"] == Text(NoOrders + "\n" + tb))
  {
    var outcome := PrepareSpec(ws, orders, strategy, dist).1;
    PrepareRejectsEmpty(ws, orders, strategy, dist);
    Lifecycle(Request(ws, orders), strategy, outcome, tb);
  }
}
