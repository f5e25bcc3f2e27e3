/** The optimizer's wire messages and the conversions on both ends of the connection. Every load on the
    wire is in whole millicores and whole MiB. */
module Wire {
  import opened Loads
  import opened Quantities
  import opened Workflow

  datatype Option<T> = None | Some(value: T)

  datatype WireTask = WireTask(name: string, dependencies: seq<string>, base: Option<Load>)

  datatype WireStatus = WireStatus(phase: TaskPhase, podName: string, load: Load)

  datatype WireAllocation = WireAllocation(task: string, request: Load, limit: Load)

  datatype PlanRequest = PlanRequest(
    tasks: seq<WireTask>,
    statuses: map<string, WireStatus>,
    predictions: map<string, Load>,
    max: Option<Load>)

  // ---- Client: controller types to wire ----

  function SendLoad(list: ResourceList): Load {
    ToWire(LoadOf(list))
  }

  function SendTask(task: TaskTemplate): WireTask {
    WireTask(task.name, task.dependencies,
             if task.baseResources.requests != map[] then Some(SendLoad(task.baseResources.requests)) else None)
  }

  function SendStatus(ts: TaskStatus): WireStatus {
    WireStatus(ts.phase, ts.podName, SendLoad(ts.resources.requests))
  }

  function Request(spec: Spec, statuses: Statuses, predictions: Predictions): PlanRequest {
    PlanRequest(
      seq(|spec.tasks|, i requires 0 <= i < |spec.tasks| => SendTask(spec.tasks[i])),
      map t | t in statuses :: SendStatus(statuses[t]),
      map t | t in predictions :: SendLoad(predictions[t].requests),
      if spec.maxResources != map[] then Some(SendLoad(spec.maxResources)) else None)
  }

  /** The client's loop body for one resource list: keys that are absent stay zero on the wire. */
  method ConvertList(list: ResourceList) returns (load: Load)
    ensures load == SendLoad(list)
  {
    var cpu, mem := 0, 0;
    if Cpu in list {
      cpu := MilliValue(list[Cpu]);
    }
    if Memory in list {
      mem := MebiValue(list[Memory]);
    }
    load := Load(cpu, mem);
  }

  method ConvertStatuses(statuses: Statuses) returns (result: map<string, WireStatus>)
    ensures result == map t | t in statuses :: SendStatus(statuses[t])
  {
    result := map[];
    var keys := statuses.Keys;
    while keys != {}
      invariant keys <= statuses.Keys
      invariant result == map t | t in statuses && t !in keys :: SendStatus(statuses[t])
    {
      var t :| t in keys;
      var load := ConvertList(statuses[t].resources.requests);
      result := result[t := WireStatus(statuses[t].phase, statuses[t].podName, load)];
      keys := keys - {t};
    }
  }

  method ConvertPredictions(predictions: Predictions) returns (result: map<string, Load>)
    ensures result == map t | t in predictions :: SendLoad(predictions[t].requests)
  {
    result := map[];
    var keys := predictions.Keys;
    while keys != {}
      invariant keys <= predictions.Keys
      invariant result == map t | t in predictions && t !in keys :: SendLoad(predictions[t].requests)
    {
      var t :| t in keys;
      var load := ConvertList(predictions[t].requests);
      result := result[t := load];
      keys := keys - {t};
    }
  }

  method BuildRequest(spec: Spec, statuses: Statuses, predictions: Predictions) returns (request: PlanRequest)
    ensures request == Request(spec, statuses, predictions)
  {
    var tasks: seq<WireTask> := [];
    for i := 0 to |spec.tasks|
      invariant |tasks| == i && forall j :: 0 <= j < i ==> tasks[j] == SendTask(spec.tasks[j])
    {
      var task := spec.tasks[i];
      var base: Option<Load> := None;
      if task.baseResources.requests != map[] {
        var load := ConvertList(task.baseResources.requests);
        base := Some(load);
      }
      tasks := tasks + [WireTask(task.name, task.dependencies, base)];
    }
    var wireStatuses := ConvertStatuses(statuses);
    var wirePredictions := ConvertPredictions(predictions);
    var max: Option<Load> := None;
    if spec.maxResources != map[] {
      var load := ConvertList(spec.maxResources);
      max := Some(load);
    }
    request := PlanRequest(tasks, wireStatuses, wirePredictions, max);
  }

  // ---- Client: wire to controller types ----

  function ReceiveLoad(load: Load): ResourceList {
    map[Cpu := Millis(load.cpu), Memory := Mebis(load.mem)]
  }

  function ReceiveAllocation(wa: WireAllocation): TaskAllocation {
    TaskAllocation(wa.task, Requirements(ReceiveLoad(wa.request), ReceiveLoad(wa.limit)))
  }

  function Receive(response: seq<WireAllocation>): seq<TaskAllocation> {
    seq(|response|, i requires 0 <= i < |response| => ReceiveAllocation(response[i]))
  }

  method ConvertResponse(response: seq<WireAllocation>) returns (plan: seq<TaskAllocation>)
    ensures plan == Receive(response)
  {
    plan := [];
    for i := 0 to |response|
      invariant plan == Receive(response[..i])
    {
      plan := plan + [ReceiveAllocation(response[i])];
    }
    assert response[..|response|] == response;
  }

  // ---- Go server: wire to planner types and back ----

  function ServerTask(t: WireTask): TaskTemplate {
    TaskTemplate(t.name, t.dependencies,
                 if t.base.Some? then Requirements(ReceiveLoad(t.base.value), map[]) else NOTHING)
  }

  function ServerSpec(request: PlanRequest): Spec {
    Spec(seq(|request.tasks|, i requires 0 <= i < |request.tasks| => ServerTask(request.tasks[i])),
         if request.max.Some? then ReceiveLoad(request.max.value) else map[])
  }

  function ServerStatus(s: WireStatus): TaskStatus {
    TaskStatus(s.phase, s.podName,
               if s.load.cpu > 0 || s.load.mem > 0 then Requirements(ReceiveLoad(s.load), map[]) else NOTHING)
  }

  function ServerStatuses(statuses: map<string, WireStatus>): Statuses {
    map t | t in statuses :: ServerStatus(statuses[t])
  }

  /** The limit put on a predicted load: half as much again, rounded down. */
  function Headroom(load: Load): Load {
    Load(3 * load.cpu / 2, 3 * load.mem / 2)
  }

  function ServerPredictions(predictions: map<string, Load>): Predictions {
    map t | t in predictions :: Requirements(ReceiveLoad(predictions[t]), ReceiveLoad(Headroom(predictions[t])))
  }

  function Respond(a: TaskAllocation): WireAllocation {
    WireAllocation(a.task, SendLoad(a.resources.requests), SendLoad(a.resources.limits))
  }

  function RespondAll(plan: seq<TaskAllocation>): seq<WireAllocation> {
    seq(|plan|, i requires 0 <= i < |plan| => Respond(plan[i]))
  }

  method ProtoToSpec(request: PlanRequest) returns (spec: Spec)
    ensures spec == ServerSpec(request)
  {
    var tasks: seq<TaskTemplate> := [];
    for i := 0 to |request.tasks|
      invariant |tasks| == i && forall j :: 0 <= j < i ==> tasks[j] == ServerTask(request.tasks[j])
    {
      tasks := tasks + [ServerTask(request.tasks[i])];
    }
    spec := Spec(tasks, if request.max.Some? then ReceiveLoad(request.max.value) else map[]);
  }

  method ProtoToTaskStatuses(statuses: map<string, WireStatus>) returns (result: Statuses)
    ensures result == ServerStatuses(statuses)
  {
    result := map[];
    var keys := statuses.Keys;
    while keys != {}
      invariant keys <= statuses.Keys
      invariant result == map t | t in statuses && t !in keys :: ServerStatus(statuses[t])
    {
      var t :| t in keys;
      result := result[t := ServerStatus(statuses[t])];
      keys := keys - {t};
    }
  }

  method ProtoToPredictions(predictions: map<string, Load>) returns (result: Predictions)
    ensures result == ServerPredictions(predictions)
  {
    result := map[];
    var keys := predictions.Keys;
    while keys != {}
      invariant keys <= predictions.Keys
      invariant result == map t | t in predictions && t !in keys ::
                            Requirements(ReceiveLoad(predictions[t]), ReceiveLoad(Headroom(predictions[t])))
    {
      var t :| t in keys;
      result := result[t := Requirements(ReceiveLoad(predictions[t]), ReceiveLoad(Headroom(predictions[t])))];
      keys := keys - {t};
    }
  }

  /** The server's conversion of the plan into its response. */
  method ConvertPlan(plan: seq<TaskAllocation>) returns (response: seq<WireAllocation>)
    ensures response == RespondAll(plan)
  {
    response := [];
    for i := 0 to |plan|
      invariant |response| == i && forall j :: 0 <= j < i ==> response[j] == Respond(plan[j])
    {
      response := response + [Respond(plan[i])];
    }
  }

  // ---- Round trips ----

  /** Whatever crosses the wire and comes back is read as the very load that was sent. */
  lemma LoadRoundTrip(load: Load)
    ensures SendLoad(ReceiveLoad(load)) == load
    ensures LoadOf(ReceiveLoad(load)) == Scale(load)
  {
  }

  /** Server responses survive the client's conversion: planning there and reading here agree on every
      request and limit. */
  lemma ResponseRoundTrip(wa: WireAllocation)
    ensures Respond(ReceiveAllocation(wa)) == wa
  {
    LoadRoundTrip(wa.request);
    LoadRoundTrip(wa.limit);
  }

  /** A limit with headroom never lies below the request. */
  lemma HeadroomCovers(load: Load)
    ensures load.cpu <= Headroom(load).cpu && load.mem <= Headroom(load).mem
    ensures 2 * Headroom(load).cpu <= 3 * load.cpu < 2 * Headroom(load).cpu + 2
    ensures 2 * Headroom(load).mem <= 3 * load.mem < 2 * Headroom(load).mem + 2
  {
  }

  /** A status sent and decoded again is the same but for requests that the wire cannot carry. */
  lemma StatusRoundTrip(ts: TaskStatus)
    ensures var back := ServerStatus(SendStatus(ts));
            && back.phase == ts.phase && back.podName == ts.podName && back.resources.limits == map[]
            && LoadOf(back.resources.requests) == Scale(ToWire(LoadOf(ts.resources.requests)))
  {
    WireOfScale(ToWire(LoadOf(ts.resources.requests)));
  }

  /** So is a task: its hint arrives as requests only, and exactly if it had any. */
  lemma TaskRoundTrip(task: TaskTemplate)
    ensures var back := ServerTask(SendTask(task));
            && back.name == task.name && back.dependencies == task.dependencies && back.baseResources.limits == map[]
            && (back.baseResources.requests == map[] <==> task.baseResources.requests == map[])
            && LoadOf(back.baseResources.requests) == Scale(ToWire(LoadOf(task.baseResources.requests)))
  {
    assert Cpu in ReceiveLoad(SendLoad(task.baseResources.requests));
  }

  /** A whole request decoded by the server: the same tasks in the same order. */
  lemma TasksRoundTrip(spec: Spec, statuses: Statuses, predictions: Predictions, i: nat)
    requires i < |spec.tasks|
    ensures var back := ServerSpec(Request(spec, statuses, predictions)).tasks;
            && |back| == |spec.tasks|
            && back[i].name == spec.tasks[i].name && back[i].dependencies == spec.tasks[i].dependencies
            && LoadOf(back[i].baseResources.requests) == Scale(ToWire(LoadOf(spec.tasks[i].baseResources.requests)))
  {
    TaskRoundTrip(spec.tasks[i]);
  }

  /** A status for the same names, with the same phases and pod names. */
  lemma StatusesRoundTrip(spec: Spec, statuses: Statuses, predictions: Predictions, t: string)
    ensures var back := ServerStatuses(Request(spec, statuses, predictions).statuses);
            && (t in back <==> t in statuses)
            && (t in statuses ==>
                  && back[t].phase == statuses[t].phase && back[t].podName == statuses[t].podName
                  && LoadOf(back[t].resources.requests) == Scale(ToWire(LoadOf(statuses[t].resources.requests))))
  {
    if t in statuses {
      StatusRoundTrip(statuses[t]);
    }
  }

  /** A prediction for the same names. */
  lemma PredictionsRoundTrip(spec: Spec, statuses: Statuses, predictions: Predictions, t: string)
    ensures var back := ServerPredictions(Request(spec, statuses, predictions).predictions);
            && (t in back <==> t in predictions)
            && (t in predictions ==>
                  LoadOf(back[t].requests) == Scale(ToWire(LoadOf(predictions[t].requests))))
  {
    if t in predictions {
      LoadRoundTrip(SendLoad(predictions[t].requests));
    }
  }

  /** A cap exactly if there was one. */
  lemma CapRoundTrip(spec: Spec, statuses: Statuses, predictions: Predictions)
    ensures var back := ServerSpec(Request(spec, statuses, predictions)).maxResources;
            && (back == map[] <==> spec.maxResources == map[])
            && LoadOf(back) == Scale(ToWire(LoadOf(spec.maxResources)))
  {
    if spec.maxResources != map[] {
      assert Cpu in ReceiveLoad(SendLoad(spec.maxResources));
    }
  }
}
