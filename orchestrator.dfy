/**
 * The orchestrator of handler.py: turns an invocation into job
 * parameters, creates the job record, fetches the leads from the CRM,
 * queues one message per lead, sizes the worker fleet and moves the job
 * through its statuses. The job table and the queue are the fields of
 * `Backend`; the CRM, the queue's send call and the container service are
 * parameters.
 */
module Orchestrator {
  import opened PyValues
  import opened Leads

  // ---------------------------------------------------------------------
  // Worker fleet size

  const MinWorkers := 2
  const MaxWorkers := 10
  const LeadsPerWorker := 500

  /** `min(max(2, queued_count // 500), 10)`. */
  function OptimalWorkers(queued: nat): (r: nat)
    ensures MinWorkers <= r <= MaxWorkers
  {
    var byLoad := queued / LeadsPerWorker;
    var atLeast := if byLoad > MinWorkers then byLoad else MinWorkers;
    if atLeast < MaxWorkers then atLeast else MaxWorkers
  }

  /** The fleet has between 2 and 10 workers, 2 below 1500 queued leads and 10 from 5000 on. */
  lemma OptimalWorkersBounds(queued: nat)
    ensures MinWorkers <= OptimalWorkers(queued) <= MaxWorkers
    ensures queued < 3 * LeadsPerWorker ==> OptimalWorkers(queued) == MinWorkers
    ensures queued >= MaxWorkers * LeadsPerWorker ==> OptimalWorkers(queued) == MaxWorkers
    ensures 3 * LeadsPerWorker <= queued < MaxWorkers * LeadsPerWorker ==> OptimalWorkers(queued) == queued / LeadsPerWorker
  {
  }

  /** More queued leads never mean fewer workers. */
  lemma OptimalWorkersMonotone(a: nat, b: nat)
    requires a <= b
    ensures OptimalWorkers(a) <= OptimalWorkers(b)
  {
    assert a / LeadsPerWorker <= b / LeadsPerWorker;
  }

  /** `safe_count = min(count, 10)` of `start_ecs_workers`. */
  function EcsTaskCount(count: int): (r: int)
    ensures r <= MaxWorkers && r <= count
    ensures r == count || r == MaxWorkers
  {
    if count < MaxWorkers then count else MaxWorkers
  }

  /** The container service's answer to a run request: it raised, or it listed the tasks started and the failures. */
  datatype EcsResponse = EcsRaised | EcsRan(tasks: nat, failures: nat)

  /**
   * `start_ecs_workers`' result: the number of tasks started, 0 when the
   * call raised; tasks that failed to start are not counted.
   */
  function WorkersStarted(response: EcsResponse): (r: nat)
    ensures r > 0 ==> response.EcsRan?
    ensures response.EcsRan? ==> r == response.tasks
  {
    match response
    case EcsRaised => 0
    case EcsRan(tasks, _) => tasks
  }

  // ---------------------------------------------------------------------
  // Invocation and parameters

  /**
   * The invocation event: a dict (each key absent, or present with a JSON
   * value) or any other JSON value, such as a string.
   */
  datatype RawEvent =
    | EventDict(source: Option<Value>, limit: Option<Value>, updateSalesforce: Option<Value>)
    | NotADict

  const ScheduledSource := "aws.events"
  const DefaultLimit := 10000

  /** The job parameters `lambda_handler` derives from the event; `.get` on a non-dict raises. */
  function JobParameters(event: RawEvent): (r: Result<Params, string>)
    ensures r.Err? <==> event.NotADict?
    ensures r.Ok? ==> r.value.updateSalesforce.Some?
  {
    match event
    case NotADict => Err("AttributeError")
    case EventDict(source, limit, update) =>
      if source == Some(Str(ScheduledSource)) then Ok(Params(Some(Bool(true)), Some(Int(DefaultLimit))))
      else Ok(Params(Some(update.GetOr(Bool(false))),
                     if limit.Some? && Truthy(limit.value) then limit else None))
  }

  /** A scheduled run asks for the CRM update and at most 10000 leads, whatever else the event says. */
  lemma ScheduledParameters(limit: Option<Value>, update: Option<Value>)
    ensures JobParameters(EventDict(Some(Str(ScheduledSource)), limit, update))
            == Ok(Params(Some(Bool(true)), Some(Int(DefaultLimit))))
  {
  }

  /**
   * A manual run updates the CRM only when asked to, and passes the limit
   * on only when it is truthy.
   */
  lemma ManualParameters(source: Option<Value>, limit: Option<Value>, update: Option<Value>)
    requires source != Some(Str(ScheduledSource))
    ensures var p := JobParameters(EventDict(source, limit, update)).value;
            (UpdateRequested(p) <==> update.Some? && Truthy(update.value))
            && (p.limit.Some? <==> limit.Some? && Truthy(limit.value))
            && (p.limit.Some? ==> p.limit == limit)
  {
  }

  // ---------------------------------------------------------------------
  // Fetching the leads

  /**
   * The fixed part of the lead query of `fetch_salesforce_leads`: leads with
   * a website, not yet enriched, from one creator, newest first. The function
   * spreads it over several indented lines; here the line breaks and the
   * indentation are collapsed into single spaces.
   */
  const LeadQuery :=
    "SELECT Id, Company, Website, FirstName, LastName, Email, Phone, Street, City, State, PostalCode, Country, "
    + "Title, CreatedDate, Enriched_First_Name__c, Enriched_Last_Name__c, Enrichment_Completed__c FROM Lead "
    + "WHERE Website != null AND (Enrichment_Completed__c = false OR Enrichment_Completed__c = null) "
    + "AND CreatedById = '0054V00000GJFtbQAH' ORDER BY CreatedDate DESC"

  /** The query `fetch_salesforce_leads` runs: a LIMIT clause when the limit (10000 by default) is truthy. */
  function Query(params: Params): (q: string)
    ensures LeadQuery <= q
    ensures q != LeadQuery <==> Truthy(params.limit.GetOr(Int(DefaultLimit)))
    ensures q != LeadQuery ==> |q| >= |LeadQuery| + 7 && q[|LeadQuery|..|LeadQuery| + 7] == " LIMIT "
  {
    var limit := params.limit.GetOr(Int(DefaultLimit));
    if Truthy(limit) then LeadQuery + " LIMIT " + Render(limit) else LeadQuery
  }

  /** Every query the handler runs is limited: a manual limit is kept only when truthy, and its absence means 10000. */
  lemma HandlerQueryLimited(event: RawEvent)
    requires JobParameters(event).Ok?
    ensures var p := JobParameters(event).value;
            var limit := p.limit.GetOr(Int(DefaultLimit));
            Truthy(limit) && Query(p) == LeadQuery + " LIMIT " + Render(limit)
  {
  }

  /** A CRM query record: field name to value, a null value being None. */
  type SfRecord = map<string, Option<string>>

  /** `record.get(name)`: None when the field is missing or null. */
  function Field(record: SfRecord, name: string): Option<string> {
    if name in record then record[name] else None
  }

  /**
   * The lead dict built from one record; `record['Id']` must be there. The
   * lead always carries its id key, null when the record's Id is null, and
   * takes the website and the company from the record.
   */
  function LeadOf(record: SfRecord): (r: Lead)
    requires "Id" in record
    ensures r.id == IdPresent(record["Id"]) && IdOf(r) == record["Id"]
    ensures r.website == Field(record, "Website") && r.company == Field(record, "Company")
  {
    Lead(IdPresent(record["Id"]), Field(record, "Company"), Field(record, "Website"), Field(record, "Email"),
         Field(record, "Phone"), Field(record, "FirstName"), Field(record, "LastName"),
         Field(record, "Title"), Field(record, "CreatedDate"),
         LeadAddress(Field(record, "Street"), Field(record, "City"), Field(record, "State"),
                     Field(record, "PostalCode"), Field(record, "Country")))
  }

  /** Why a job failed after its record was created. */
  datatype JobError = ConnectFailed | QueryFailed | MissingId | SendFailed

  /** The leads of `records`, in order, or the KeyError of the first record without an Id. */
  function LeadsOf(records: seq<SfRecord>): (r: Result<seq<Lead>, JobError>)
    ensures r.Err? ==> r.error == MissingId
    decreases |records|
  {
    if records == [] then Ok([])
    else match LeadsOf(records[..|records| - 1])
      case Err(e) => Err(e)
      case Ok(leads) =>
        var last := records[|records| - 1];
        if "Id" in last then Ok(leads + [LeadOf(last)]) else Err(MissingId)
  }

  /** The conversion succeeds exactly when every record has an Id, giving one lead per record in order. */
  lemma {:induction false} LeadsOfIff(records: seq<SfRecord>)
    ensures LeadsOf(records).Ok? <==> forall i :: 0 <= i < |records| ==> "Id" in records[i]
    ensures LeadsOf(records).Ok? ==>
              |LeadsOf(records).value| == |records|
              && forall i :: 0 <= i < |records| ==> LeadsOf(records).value[i] == LeadOf(records[i])
    decreases |records|
  {
    if records != [] {
      var init := records[..|records| - 1];
      LeadsOfIff(init);
      if !(forall i :: 0 <= i < |init| ==> "Id" in init[i]) {
        var i :| 0 <= i < |init| && "Id" !in init[i];
        assert records[i] == init[i];
      }
    }
  }

  /** The loop of `fetch_salesforce_leads` that converts the query records. */
  method FetchLeads(records: seq<SfRecord>) returns (r: Result<seq<Lead>, JobError>)
    ensures r == LeadsOf(records)
  {
    var leads: seq<Lead> := [];
    var i := 0;
    while i < |records|
      invariant 0 <= i <= |records|
      invariant LeadsOf(records[..i]) == Ok(leads)
    {
      assert records[..i + 1][..i] == records[..i];
      var record := records[i];
      if "Id" !in record {
        LeadsOfMissing(records, i);
        return Err(MissingId);
      }
      leads := leads + [LeadOf(record)];
      i := i + 1;
    }
    assert records[..i] == records;
    r := Ok(leads);
  }

  /** A record without an Id makes the whole conversion fail, whatever follows it. */
  lemma {:induction false} LeadsOfMissing(records: seq<SfRecord>, k: nat)
    requires k < |records| && "Id" !in records[k]
    requires LeadsOf(records[..k]).Ok?
    ensures LeadsOf(records) == Err(MissingId)
    decreases |records|
  {
    if k < |records| - 1 {
      var init := records[..|records| - 1];
      assert init[..k] == records[..k];
      LeadsOfMissing(init, k);
    } else {
      assert records[..|records| - 1] == records[..k];
    }
  }

  // ---------------------------------------------------------------------
  // The job

  datatype JobStatus = FetchingLeads | QueuingLeads | Processing | Failed

  /** The job record: status, creation time, parameters, and the attributes the later updates set. */
  datatype JobRecord = JobRecord(
    status: JobStatus,
    createdAt: string,
    parameters: Params,
    leadsFound: Option<nat>,
    leadsQueued: Option<nat>,
    workersStarted: Option<nat>,
    error: Option<JobError>)

  /** The body of a successful answer. */
  datatype JobSummary = JobSummary(jobId: string, leadsFound: nat, leadsQueued: nat, workersStarted: nat)

  /**
   * What the outside world does during one job: the fresh job id and
   * creation time, whether the CRM login works, what a query returns (None
   * when it raises), whether the n-th send is accepted, and how the
   * container service answers a run request for a given task count.
   */
  datatype JobEnv = JobEnv(
    jobId: string,
    createdAt: string,
    sfConnects: bool,
    runQuery: string -> Option<seq<SfRecord>>,
    sendAccepts: nat -> bool,
    ecs: int -> EcsResponse)

  /** The number of sends, out of `n`, that go through before the first refused one. */
  function SentCount(accepts: nat -> bool, n: nat, i: nat): (k: nat)
    requires i <= n
    ensures i <= k <= n
    ensures forall j :: i <= j < k ==> accepts(j)
    ensures k < n ==> !accepts(k)
    decreases n - i
  {
    if i == n || !accepts(i) then i else SentCount(accepts, n, i + 1)
  }

  /** The queue messages for `leads`, one per lead, in order. */
  function MessagesFor(jobId: string, leads: seq<Lead>, params: Params): seq<Message> {
    seq(|leads|, i requires 0 <= i < |leads| => Message(jobId, leads[i], params))
  }

  /** The effects of `start_enrichment_job`: the job record (None when none was written), the messages sent, the statuses taken, the answer. */
  datatype JobRun = JobRun(record: Option<JobRecord>, sent: seq<Message>, history: seq<JobStatus>, result: Result<JobSummary, JobError>)

  function JobSpec(params: Params, env: JobEnv): JobRun {
    if !env.sfConnects then JobRun(None, [], [], Err(ConnectFailed))
    else
      var initial := JobRecord(FetchingLeads, env.createdAt, params, None, None, None, None);
      var fetched := env.runQuery(Query(params));
      if fetched.None? then
        JobRun(Some(initial.(status := Failed, error := Some(QueryFailed))), [], [FetchingLeads, Failed], Err(QueryFailed))
      else if LeadsOf(fetched.value).Err? then
        JobRun(Some(initial.(status := Failed, error := Some(MissingId))), [], [FetchingLeads, Failed], Err(MissingId))
      else QueuedRun(params, env, LeadsOf(fetched.value).value)
  }

  /** The rest of `start_enrichment_job` once the leads are fetched: queue them, then start the workers. */
  function QueuedRun(params: Params, env: JobEnv, leads: seq<Lead>): (r: JobRun)
    ensures r.record.Some? && |r.history| == 3 && r.history[..2] == [FetchingLeads, QueuingLeads]
    ensures r.result.Ok? <==> |r.sent| == |leads|
  {
    var found := JobRecord(QueuingLeads, env.createdAt, params, Some(|leads|), None, None, None);
    var n := SentCount(env.sendAccepts, |leads|, 0);
    var sent := MessagesFor(env.jobId, leads[..n], params);
    if n < |leads| then
      JobRun(Some(found.(status := Failed, error := Some(SendFailed))), sent,
             [FetchingLeads, QueuingLeads, Failed], Err(SendFailed))
    else
      var workers := WorkersStarted(env.ecs(EcsTaskCount(OptimalWorkers(n))));
      JobRun(Some(found.(status := Processing, leadsQueued := Some(n), workersStarted := Some(workers))),
             sent, [FetchingLeads, QueuingLeads, Processing], Ok(JobSummary(env.jobId, |leads|, n, workers)))
  }

  /** The order of the statuses: fetching_leads, then queuing_leads, then processing or failed. */
  function Stage(s: JobStatus): nat {
    match s
    case FetchingLeads => 0
    case QueuingLeads => 1
    case Processing => 2
    case Failed => 2
  }

  /**
   * The job's status only moves forward: it starts at fetching_leads, each
   * later status is a later stage, and it ends at processing exactly when
   * the job succeeded, or at failed; a failed CRM login writes no record at
   * all.
   */
  lemma StatusProgression(params: Params, env: JobEnv)
    ensures var run := JobSpec(params, env);
            (run.record.None? <==> !env.sfConnects)
            && (run.record.Some? ==>
                  run.history[0] == FetchingLeads
                  && (forall i :: 0 < i < |run.history| ==> Stage(run.history[i - 1]) < Stage(run.history[i]))
                  && run.record.value.status == run.history[|run.history| - 1]
                  && (run.record.value.status == Processing <==> run.result.Ok?)
                  && (run.record.value.status == Failed <==> run.result.Err?)
                  && (run.result.Err? ==> run.record.value.error == Some(run.result.error)))
  {
  }

  /**
   * A successful job queued one message per fetched lead, each carrying the
   * job id, the lead and the parameters, and the answer's counts agree.
   */
  lemma QueuedMatchesLeads(params: Params, env: JobEnv)
    requires JobSpec(params, env).result.Ok?
    ensures var run := JobSpec(params, env);
            var leads := LeadsOf(env.runQuery(Query(params)).value).value;
            run.result.value.leadsQueued == run.result.value.leadsFound == |run.sent| == |leads|
            && (forall i :: 0 <= i < |leads| ==> run.sent[i] == Message(env.jobId, leads[i], params))
            && run.record.value.leadsQueued == Some(|run.sent|)
  {
    var run := JobSpec(params, env);
    var leads := LeadsOf(env.runQuery(Query(params)).value).value;
    assert leads[..|leads|] == leads;
  }

  /** The container service is never asked for fewer than 2 or more than 10 workers. */
  lemma WorkerRequestBounded(queued: nat)
    ensures MinWorkers <= EcsTaskCount(OptimalWorkers(queued)) <= MaxWorkers
  {
    OptimalWorkersBounds(queued);
  }

  /** The answer of `lambda_handler`. */
  datatype Response = Response(statusCode: int, body: Result<JobSummary, string>)

  /** The error text of a job failure in the 500 answer. */
  function ErrorText(e: JobError): string {
    match e
    case ConnectFailed => "ConnectFailed"
    case QueryFailed => "QueryFailed"
    case MissingId => "'Id'"
    case SendFailed => "SendFailed"
  }

  /** The job table and the queue the orchestrator writes. */
  class Backend {
    var jobs: map<string, JobRecord>
    /** The messages sent to the job queue, in order. */
    var queue: seq<Message>

    constructor()
      ensures jobs == map[] && queue == []
    {
      jobs := map[];
      queue := [];
    }

    /** The `for lead in leads` loop: sends one message per lead until a send raises. */
    method QueueLeads(jobId: string, leads: seq<Lead>, params: Params, accepts: nat -> bool) returns (queued: nat)
      modifies this
      ensures queued == SentCount(accepts, |leads|, 0)
      ensures queue == old(queue) + MessagesFor(jobId, leads[..queued], params)
      ensures jobs == old(jobs)
    {
      queued := 0;
      while queued < |leads|
        invariant 0 <= queued <= |leads|
        invariant SentCount(accepts, |leads|, 0) == SentCount(accepts, |leads|, queued)
        invariant queue == old(queue) + MessagesFor(jobId, leads[..queued], params)
        invariant jobs == old(jobs)
      {
        if !accepts(queued) {
          return;
        }
        queue := queue + [Message(jobId, leads[queued], params)];
        assert MessagesFor(jobId, leads[..queued + 1], params) == MessagesFor(jobId, leads[..queued], params) + [Message(jobId, leads[queued], params)];
        queued := queued + 1;
      }
    }

    /**
     * `start_enrichment_job`: writes the job record, fetches and queues the
     * leads, starts the workers and records each status, or marks the job
     * failed and re-raises.
     */
    method StartEnrichmentJob(params: Params, env: JobEnv)
      returns (result: Result<JobSummary, JobError>, history: seq<JobStatus>)
      modifies this
      ensures var run := JobSpec(params, env);
              && result == run.result && history == run.history
              && queue == old(queue) + run.sent
              && jobs == (if run.record.Some? then old(jobs)[env.jobId := run.record.value] else old(jobs))
    {
      if !env.sfConnects {
        return Err(ConnectFailed), [];
      }
      var record := JobRecord(FetchingLeads, env.createdAt, params, None, None, None, None);
      jobs := jobs[env.jobId := record];
      history := [FetchingLeads];
      var fetched := env.runQuery(Query(params));
      if fetched.None? {
        record := record.(status := Failed, error := Some(QueryFailed));
        jobs := jobs[env.jobId := record];
        return Err(QueryFailed), history + [Failed];
      }
      var leads := FetchLeads(fetched.value);
      if leads.Err? {
        record := record.(status := Failed, error := Some(leads.error));
        jobs := jobs[env.jobId := record];
        return Err(leads.error), history + [Failed];
      }
      result, history := QueueAndStartWorkers(params, env, leads.value);
    }

    /**
     * The part of `start_enrichment_job` after the leads are fetched: the
     * record moves to queuing_leads, the leads are queued, and when all were
     * sent the workers are started and the record moves to processing.
     */
    method QueueAndStartWorkers(params: Params, env: JobEnv, leads: seq<Lead>)
      returns (result: Result<JobSummary, JobError>, history: seq<JobStatus>)
      modifies this
      ensures var run := QueuedRun(params, env, leads);
              && result == run.result && history == run.history
              && queue == old(queue) + run.sent
              && jobs == old(jobs)[env.jobId := run.record.value]
    {
      var found := |leads|;
      var record := JobRecord(QueuingLeads, env.createdAt, params, Some(found), None, None, None);
      jobs := jobs[env.jobId := record];
      history := [FetchingLeads, QueuingLeads];
      var queued := QueueLeads(env.jobId, leads, params, env.sendAccepts);
      if queued < found {
        record := record.(status := Failed, error := Some(SendFailed));
        jobs := jobs[env.jobId := record];
        return Err(SendFailed), history + [Failed];
      }
      var workers := WorkersStarted(env.ecs(EcsTaskCount(OptimalWorkers(queued))));
      record := record.(status := Processing, leadsQueued := Some(queued), workersStarted := Some(workers));
      jobs := jobs[env.jobId := record];
      history := history + [Processing];
      result := Ok(JobSummary(env.jobId, found, queued, workers));
    }

    /**
     * `lambda_handler` of handler.py: 200 with the job summary, or 500 with
     * the error for any exception; an event that is not a dict fails before
     * any job is written.
     */
    method Handle(event: RawEvent, env: JobEnv) returns (response: Response)
      modifies this
      ensures response.statusCode == 200 || response.statusCode == 500
      ensures response.statusCode == 200 <==> response.body.Ok?
      ensures event.NotADict? ==> response.statusCode == 500 && jobs == old(jobs) && queue == old(queue)
      ensures event.EventDict? ==>
                var run := JobSpec(JobParameters(event).value, env);
                && (response.statusCode == 200 <==> run.result.Ok?)
                && (run.result.Ok? ==> response.body == Ok(run.result.value))
                && queue == old(queue) + run.sent
                && jobs == (if run.record.Some? then old(jobs)[env.jobId := run.record.value] else old(jobs))
    {
      var params := JobParameters(event);
      if params.Err? {
        return Response(500, Err(params.error));
      }
      var result, history := StartEnrichmentJob(params.value, env);
      match result {
        case Ok(summary) => response := Response(200, Ok(summary));
        case Err(e) => response := Response(500, Err(ErrorText(e)));
      }
    }
  }
}
