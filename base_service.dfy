/** What every agent service shares: the table of the services each one depends on,
    the port it listens on, the gate that decides whether an incoming update is
    processed, and `process_update`, which turns the outcome of the service's own
    `process` into exactly one broadcast record. */
module BaseService {
  import opened JsonValue
  import opened Communicator

  /** `self.dependencies`: the services whose updates a service processes. */
  const Dependencies: map<string, seq<string>> := map[
    "architecture" := ["business"],
    "developer" := ["architecture"],
    "qa" := ["developer"],
    "audit" := ["developer", "qa"],
    "documentation" := ["business", "architecture", "developer", "qa", "audit"]
  ]

  /** `self.dependencies.get(agent_type, [])`: `business` has no entry. */
  function Upstreams(role: string): (r: seq<string>)
    ensures r == [] <==> role !in Dependencies
    ensures forall up :: up in r ==> up in Roles && up != role
  {
    if role in Dependencies then Dependencies[role] else []
  }

  /** The roles of the system, upstream first. */
  const Roles: seq<string> := ["business", "architecture", "developer", "qa", "audit", "documentation"]

  /** The position of a role in `Roles`; any other name counts as the first. */
  function Rank(role: string): nat {
    if role == "architecture" then 1
    else if role == "developer" then 2
    else if role == "qa" then 3
    else if role == "audit" then 4
    else if role == "documentation" then 5
    else 0
  }

  /** Every dependency is a role that comes strictly earlier. */
  lemma UpstreamIsEarlier(role: string, up: string)
    requires up in Upstreams(role)
    ensures up in Roles && Rank(up) < Rank(role)
  {
    if role == "architecture" {
      assert up == "business";
    } else if role == "developer" {
      assert up == "architecture";
    } else if role == "qa" {
      assert up == "developer";
    } else if role == "audit" {
      assert up == "developer" || up == "qa";
    } else {
      assert role == "documentation";
      assert up in ["business", "architecture", "developer", "qa", "audit"];
    }
  }

  /** No service depends on itself. */
  lemma NoSelfDependency(role: string)
    ensures role !in Upstreams(role)
  {
    if role in Upstreams(role) {
      UpstreamIsEarlier(role, role);
    }
  }

  /** A chain of services each of which depends on the next. */
  predicate DependencyChain(chain: seq<string>) {
    forall i :: 0 <= i < |chain| - 1 ==> chain[i + 1] in Upstreams(chain[i])
  }

  lemma {:induction false} ChainDescends(chain: seq<string>)
    requires |chain| >= 2 && DependencyChain(chain)
    ensures Rank(chain[|chain| - 1]) < Rank(chain[0])
    decreases |chain|
  {
    UpstreamIsEarlier(chain[0], chain[1]);
    if |chain| > 2 {
      var rest := chain[1..];
      assert forall i :: 0 <= i < |rest| ==> rest[i] == chain[i + 1];
      ChainDescends(rest);
    }
  }

  /** The dependency graph has no cycle: a chain of dependencies never returns to
      the service it started from. */
  lemma DependenciesAcyclic(chain: seq<string>)
    requires |chain| >= 2 && DependencyChain(chain)
    ensures chain[|chain| - 1] != chain[0]
  {
    ChainDescends(chain);
  }

  /** `documentation` depends on every other role. */
  lemma DocumentationDependsOnAll(role: string)
    requires role in Roles && role != "documentation"
    ensures role in Upstreams("documentation")
  {
  }

  /** `service_ports.get(agent_type, 5000)`, with the same table the communicator holds. */
  function Port(role: string): (r: int)
    ensures role in Keys(ServicePorts) ==> (role, r) in ServicePorts
    ensures role !in Keys(ServicePorts) ==> r == 5000
  {
    LookupKnown(ServicePorts, role);
    match Lookup(ServicePorts, role)
    case Some(p) => p
    case None => 5000
  }

  /** The services of the port table listen on distinct ports between 5001 and 5005;
      any other role, `business` among them, on 5000. */
  lemma PortChoice(role: string, other: string)
    ensures role in Keys(ServicePorts) ==> 5001 <= Port(role) <= 5005
    ensures role !in Keys(ServicePorts) ==> Port(role) == 5000
    ensures Port("business") == 5000
    ensures role in Keys(ServicePorts) && other in Keys(ServicePorts) && role != other ==> Port(role) != Port(other)
  {
    assert Keys(ServicePorts) == ["architecture", "developer", "qa", "audit", "documentation"];
    LookupKnown(ServicePorts, role);
    LookupKnown(ServicePorts, other);
    LookupKnown(ServicePorts, "business");
  }

  /** `_should_process_update`: a payload that is not a dict makes `data.get` raise;
      a missing or false `source` is rejected; otherwise the source must be one of
      the service's dependencies. */
  function ShouldProcessUpdate(data: Json, agentType: string): (r: Result<bool>)
    ensures r.Success? <==> data.JObj?
    ensures data.JObj? && !Truthy(Get(data.fields, "source")) ==> r == Success(false)
    ensures r == Success(true) <==>
      data.JObj? && Get(data.fields, "source").JStr? && Get(data.fields, "source").s in Upstreams(agentType)
  {
    match data
    case JObj(fields) =>
      var source := Get(fields, "source");
      if !Truthy(source) then Success(false)
      else Success(source.JStr? && source.s in Upstreams(agentType))
    case _ => Failure("object has no attribute 'get'")
  }

  /** A payload naming `source` as its origin. */
  function FromSource(source: string): Json {
    JObj(map["source" := JStr(source)])
  }

  /** `qa` processes only what `developer` sends, `audit` what `developer` or `qa`
      sends, and `business`, with no dependencies, nothing at all. */
  lemma GateExamples(source: string, data: Json)
    ensures ShouldProcessUpdate(FromSource(source), "qa") == Success(true) <==> source == "developer"
    ensures ShouldProcessUpdate(FromSource(source), "audit") == Success(true) <==> source in ["developer", "qa"]
    ensures ShouldProcessUpdate(data, "business") != Success(true)
  {
    assert Get(FromSource(source).fields, "source") == JStr(source);
  }

  /** The record broadcast after a successful update. */
  function UpdateRecord(agentType: string, result: Json): Json {
    JObj(map["source" := JStr(agentType), "type" := JStr("update"), "data" := result])
  }

  /** The record broadcast when processing raised. */
  function ErrorRecord(agentType: string, error: string): Json {
    JObj(map["source" := JStr(agentType), "type" := JStr("error"), "error" := JStr(error)])
  }

  /** The one record `process_update` broadcasts: an update carrying the result when
      `process` and `save_artifacts` both succeed, otherwise an error carrying the
      message of the first exception. */
  function Broadcasted(agentType: string, processed: Result<Json>, saveFailure: Option<string>): (r: Json)
    ensures r.JObj? && Get(r.fields, "source") == JStr(agentType)
    ensures Get(r.fields, "type") == JStr("update") <==> processed.Success? && saveFailure.None?
    ensures !(processed.Success? && saveFailure.None?) ==> Get(r.fields, "type") == JStr("error")
    ensures processed.Success? && saveFailure.None? ==> Get(r.fields, "data") == processed.value
    ensures processed.Failure? ==> Get(r.fields, "error") == JStr(processed.error)
    ensures processed.Success? && saveFailure.Some? ==> Get(r.fields, "error") == JStr(saveFailure.value)
  {
    match processed
    case Failure(e) => ErrorRecord(agentType, e)
    case Success(result) =>
      match saveFailure
      case Some(e) => ErrorRecord(agentType, e)
      case None => UpdateRecord(agentType, result)
  }

  /** A service never processes a record it broadcast itself: the record names it
      as source, and no service depends on itself. */
  lemma NoSelfProcessing(agentType: string, processed: Result<Json>, saveFailure: Option<string>)
    ensures ShouldProcessUpdate(Broadcasted(agentType, processed, saveFailure), agentType) == Success(false)
  {
    NoSelfDependency(agentType);
  }

  /** The state record `save_artifacts` saves: status `completed`, the result, and
      the time of the save. */
  function StateRecord(now: string, result: Json): (r: Json)
    ensures r.JObj? && Get(r.fields, "status") == JStr("completed") && Get(r.fields, "result") == result
    ensures Get(r.fields, "last_update") == JStr(now)
  {
    JObj(map["last_update" := JStr(now), "status" := JStr("completed"), "result" := result])
  }

  /** The names under which a service registers its two handlers. */
  const FileUpdateHandler: string := "handle_file_update"
  const NotificationHandler: string := "handle_notification"

  class AgentService {
    const agentType: string
    const projectName: string
    const comm: ServiceCommunicator

    /** Creates the output directory, then a communicator on the service's port with
        the two handlers registered. */
    constructor(agentType: string, projectName: string, disk: map<string, Document>, dirs: set<string>)
      ensures this.agentType == agentType && this.projectName == projectName
      ensures fresh(comm)
      ensures comm.serviceName == agentType && comm.projectName == projectName
      ensures comm.port == Port(agentType) && comm.ports == ServicePorts
      ensures comm.fileChanged == [FileUpdateHandler] && comm.notification == [NotificationHandler]
      ensures comm.disk == disk && comm.dirs == dirs + {ServiceDirOf(projectName, agentType)}
      ensures comm.sent == [] && comm.scheduled == [] && comm.observers == map[]
    {
      this.agentType := agentType;
      this.projectName := projectName;
      var c := new ServiceCommunicator(agentType, projectName, Port(agentType), disk,
                                       dirs + {ServiceDirOf(projectName, agentType)});
      c.OnFileChanged(FileUpdateHandler);
      c.OnNotification(NotificationHandler);
      comm := c;
    }

    /** `get_artifact_path("result.json")`. */
    function ResultPath(): string {
      ServiceDirOf(projectName, agentType) + "/result.json"
    }

    /** Writes the result file and then the state file. */
    method SaveArtifacts(result: Json, now: string)
      modifies comm`disk
      ensures comm.disk == old(comm.disk)[ResultPath() := Parsed(result)][comm.StatePath() := Parsed(StateRecord(now, result))]
      ensures comm.LoadState() == Success(Some(StateRecord(now, result)))
    {
      comm.disk := comm.disk[ResultPath() := Parsed(result)];
      comm.SaveState(StateRecord(now, result));
    }

    /** `process_update`: `processed` is what the service's `process` returned or
        raised, `saveFailure` the exception writing the artifacts raised, if any.
        Exactly one record is broadcast, to every peer, and the artifacts are saved
        only on success; no exception escapes. */
    method ProcessUpdate(processed: Result<Json>, saveFailure: Option<string>, now: string,
                         net: Post -> Option<Json>)
      modifies comm`disk, comm`sent
      ensures comm.sent == old(comm.sent) +
        Notifications(comm.ports, comm.Targets(), Broadcasted(agentType, processed, saveFailure))
      ensures comm.disk ==
        if processed.Success? && saveFailure.None? then
          old(comm.disk)[ResultPath() := Parsed(processed.value)][comm.StatePath() := Parsed(StateRecord(now, processed.value))]
        else old(comm.disk)
    {
      match processed {
        case Failure(e) =>
          comm.BroadcastUpdate(ErrorRecord(agentType, e), net);
        case Success(result) =>
          if saveFailure.Some? {
            comm.BroadcastUpdate(ErrorRecord(agentType, saveFailure.value), net);
          } else {
            SaveArtifacts(result, now);
            comm.BroadcastUpdate(UpdateRecord(agentType, result), net);
          }
      }
    }

    /** `_handle_file_update`: the update is processed only when the gate accepts it;
        a payload the gate raises on has no effect. */
    method HandleFileUpdate(data: Json, processed: Result<Json>, saveFailure: Option<string>, now: string,
                            net: Post -> Option<Json>)
      modifies comm`disk, comm`sent
      ensures ShouldProcessUpdate(data, agentType) != Success(true) ==>
        comm.sent == old(comm.sent) && comm.disk == old(comm.disk)
      ensures ShouldProcessUpdate(data, agentType) == Success(true) ==>
        comm.sent == old(comm.sent) +
          Notifications(comm.ports, comm.Targets(), Broadcasted(agentType, processed, saveFailure))
      ensures ShouldProcessUpdate(data, agentType) == Success(true) ==>
        comm.disk ==
          if processed.Success? && saveFailure.None? then
            old(comm.disk)[ResultPath() := Parsed(processed.value)][comm.StatePath() := Parsed(StateRecord(now, processed.value))]
          else old(comm.disk)
    {
      if ShouldProcessUpdate(data, agentType) == Success(true) {
        ProcessUpdate(processed, saveFailure, now, net);
      }
    }

    /** `_handle_notification`: the same gate, so the same payload gets the same
        decision whether it arrives as a file or as a notification. */
    method HandleNotification(data: Json, processed: Result<Json>, saveFailure: Option<string>, now: string,
                              net: Post -> Option<Json>)
      modifies comm`disk, comm`sent
      ensures ShouldProcessUpdate(data, agentType) != Success(true) ==>
        comm.sent == old(comm.sent) && comm.disk == old(comm.disk)
      ensures ShouldProcessUpdate(data, agentType) == Success(true) ==>
        comm.sent == old(comm.sent) +
          Notifications(comm.ports, comm.Targets(), Broadcasted(agentType, processed, saveFailure))
      ensures ShouldProcessUpdate(data, agentType) == Success(true) ==>
        comm.disk ==
          if processed.Success? && saveFailure.None? then
            old(comm.disk)[ResultPath() := Parsed(processed.value)][comm.StatePath() := Parsed(StateRecord(now, processed.value))]
          else old(comm.disk)
    {
      if ShouldProcessUpdate(data, agentType) == Success(true) {
        ProcessUpdate(processed, saveFailure, now, net);
      }
    }
  }
}
