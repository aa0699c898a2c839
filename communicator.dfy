/** Inter-service messaging: the port table that names the services, broadcast to
    every other service, the `.json` filter on file events from the watched
    directories, the callback registry, and the state file.

    The outside world is modelled as state and parameters: the files the
    communicator can read are a map from path to document, the existing
    directories a set of paths, a REST call is recorded in the `sent` log and
    answered by a caller-supplied `net` function, and a callback handed to
    `asyncio.create_task` is recorded in the `scheduled` log. */
module Communicator {
  import opened JsonValue
  import opened PyStr

  /** `service_ports`, in its insertion order (the order a dict iterates in). */
  const ServicePorts: seq<(string, int)> := [
    ("architecture", 5001),
    ("developer", 5002),
    ("qa", 5003),
    ("audit", 5004),
    ("documentation", 5005)
  ]

  /** The keys of an ordered table, in order. */
  function Keys(table: seq<(string, int)>): (r: seq<string>)
    ensures |r| == |table| && forall i :: 0 <= i < |table| ==> r[i] == table[i].0
  {
    seq(|table|, i requires 0 <= i < |table| => table[i].0)
  }

  /** `table.get(name)`: the port of the first entry with that key. */
  function Lookup(table: seq<(string, int)>, name: string): Option<int>
    decreases |table|
  {
    if table == [] then None
    else if table[0].0 == name then Some(table[0].1)
    else Lookup(table[1..], name)
  }

  /** A name has a port exactly when it is a key, and the port is that of an entry
      with that key. */
  lemma {:induction false} LookupKnown(table: seq<(string, int)>, name: string)
    ensures Lookup(table, name).Some? <==> name in Keys(table)
    ensures Lookup(table, name).Some? ==> (name, Lookup(table, name).value) in table
    decreases |table|
  {
    if table != [] {
      LookupKnown(table[1..], name);
      assert Keys(table) == [table[0].0] + Keys(table[1..]);
    }
  }

  /** The names in `names` other than `self`, in order. */
  function Others(names: seq<string>, self: string): seq<string>
    decreases |names|
  {
    if names == [] then []
    else (if names[0] != self then [names[0]] else []) + Others(names[1..], self)
  }

  /** No name occurs twice. */
  predicate Distinct(names: seq<string>) {
    forall i, j :: 0 <= i < j < |names| ==> names[i] != names[j]
  }

  /** Exactly the other names, in order, each as often as in the input. */
  lemma {:induction false} OthersMembers(names: seq<string>, self: string)
    ensures forall s :: s in Others(names, self) <==> s in names && s != self
    ensures Distinct(names) ==> Distinct(Others(names, self))
    ensures Distinct(names) ==> |Others(names, self)| == |names| - (if self in names then 1 else 0)
    decreases |names|
  {
    if names != [] {
      var rest := names[1..];
      OthersMembers(rest, self);
      assert forall k :: 0 <= k < |rest| ==> rest[k] == names[k + 1];
      assert names == [names[0]] + rest;
      if Distinct(names) {
        assert Distinct(rest);
        assert names[0] !in rest;
        var head := if names[0] != self then [names[0]] else [];
        var tail := Others(rest, self);
        assert Others(names, self) == head + tail;
        forall i, j | 0 <= i < j < |head + tail| ensures (head + tail)[i] != (head + tail)[j] {
          if i >= |head| {
            assert (head + tail)[i] == tail[i - |head|] && (head + tail)[j] == tail[j - |head|];
          } else {
            assert (head + tail)[j] == tail[j - 1] && tail[j - 1] in rest;
          }
        }
      }
    }
  }

  lemma {:induction false} OthersAppend(names: seq<string>, x: string, self: string)
    ensures Others(names + [x], self) == Others(names, self) + (if x != self then [x] else [])
    decreases |names|
  {
    if names == [] {
      assert [] + [x] == [x];
    } else {
      assert (names + [x])[0] == names[0];
      assert (names + [x])[1..] == names[1..] + [x];
      OthersAppend(names[1..], x, self);
    }
  }

  /** The services every other service talks to: the port table without `self`. */
  function Peers(self: string): seq<string> {
    Others(Keys(ServicePorts), self)
  }

  /** Broadcast targets: every other key of the port table, each exactly once, four
      of them for a service of the table. `business` is no key of the table, so it
      is never a target. */
  lemma PeersExactly(self: string)
    ensures forall s :: s in Peers(self) <==> s in Keys(ServicePorts) && s != self
    ensures Distinct(Peers(self))
    ensures "business" !in Peers(self)
    ensures |Peers(self)| == (if self in Keys(ServicePorts) then 4 else 5)
  {
    var keys := Keys(ServicePorts);
    assert keys == ["architecture", "developer", "qa", "audit", "documentation"];
    OthersMembers(keys, self);
  }

  /** A POST to a service's `/notify` endpoint, at the port the table gives it. */
  datatype Post = Post(service: string, port: int, data: Json)

  /** The post that notifying `name` makes: one at the port the table gives it, none
      for a name the table does not know. */
  function PostFor(table: seq<(string, int)>, name: string, data: Json): seq<Post> {
    match Lookup(table, name)
    case Some(port) => [Post(name, port, data)]
    case None => []
  }

  /** The posts that notifying each of `names` in turn makes: one per name the
      table knows, at the port it gives; none for an unknown name. */
  function Notifications(table: seq<(string, int)>, names: seq<string>, data: Json): seq<Post>
    decreases |names|
  {
    if names == [] then []
    else
      var last := names[|names| - 1];
      Notifications(table, names[..|names| - 1], data) + PostFor(table, last, data)
  }

  /** One more name of the loop: the posts grow by that name's post when it is not
      `self`. */
  lemma BroadcastStep(table: seq<(string, int)>, names: seq<string>, i: nat, self: string, data: Json)
    requires i < |names|
    ensures Notifications(table, Others(names[..i + 1], self), data) ==
      Notifications(table, Others(names[..i], self), data) +
        if names[i] == self then [] else PostFor(table, names[i], data)
  {
    assert names[..i + 1] == names[..i] + [names[i]];
    OthersAppend(names[..i], names[i], self);
    var before := Others(names[..i], self);
    if names[i] != self {
      var added := before + [names[i]];
      assert added[..|added| - 1] == before && added[|added| - 1] == names[i];
    } else {
      assert before + [] == before;
    }
  }

  /** The broadcast loop's log after key `i`: the posts so far, then that key's post
      unless it is `self`. */
  lemma BroadcastLogStep(table: seq<(string, int)>, i: nat, self: string, data: Json,
                         start: seq<Post>, before: seq<Post>, after: seq<Post>)
    requires i < |table|
    requires before == start + Notifications(table, Others(Keys(table)[..i], self), data)
    requires after == before + if table[i].0 == self then [] else PostFor(table, table[i].0, data)
    ensures after == start + Notifications(table, Others(Keys(table)[..i + 1], self), data)
  {
    BroadcastStep(table, Keys(table), i, self, data);
  }

  /** When the table knows every name, there is exactly one post per name, in order,
      at the port the table gives it. */
  lemma {:induction false} NotificationsOnePerName(table: seq<(string, int)>, names: seq<string>, data: Json)
    requires forall i :: 0 <= i < |names| ==> Lookup(table, names[i]).Some?
    ensures |Notifications(table, names, data)| == |names|
    ensures forall i :: 0 <= i < |names| ==>
      && Notifications(table, names, data)[i].service == names[i]
      && Notifications(table, names, data)[i].data == data
      && Lookup(table, names[i]) == Some(Notifications(table, names, data)[i].port)
    decreases |names|
  {
    if names != [] {
      var init := names[..|names| - 1];
      assert forall i :: 0 <= i < |init| ==> init[i] == names[i];
      NotificationsOnePerName(table, init, data);
    }
  }

  /** A broadcast over the port table posts once to each peer, in table order, at the
      peer's port: a failing peer does not change the list, and `business` is never
      posted to. */
  lemma BroadcastReachesEveryPeer(self: string, data: Json)
    ensures |Notifications(ServicePorts, Peers(self), data)| == |Peers(self)|
    ensures forall i :: 0 <= i < |Peers(self)| ==>
      && Notifications(ServicePorts, Peers(self), data)[i].service == Peers(self)[i]
      && Notifications(ServicePorts, Peers(self), data)[i].data == data
      && (Peers(self)[i], Notifications(ServicePorts, Peers(self), data)[i].port) in ServicePorts
    ensures forall post :: post in Notifications(ServicePorts, Peers(self), data) ==>
      post.service != self && post.service != "business"
  {
    var peers := Peers(self);
    PeersExactly(self);
    forall i | 0 <= i < |peers| ensures Lookup(ServicePorts, peers[i]).Some? {
      assert peers[i] in peers;
      LookupKnown(ServicePorts, peers[i]);
    }
    NotificationsOnePerName(ServicePorts, peers, data);
    forall i | 0 <= i < |peers|
      ensures (peers[i], Notifications(ServicePorts, peers, data)[i].port) in ServicePorts
    {
      LookupKnown(ServicePorts, peers[i]);
    }
    forall post | post in Notifications(ServicePorts, peers, data)
      ensures post.service != self && post.service != "business"
    {
      var i :| 0 <= i < |Notifications(ServicePorts, peers, data)| && Notifications(ServicePorts, peers, data)[i] == post;
      assert peers[i] in peers;
    }
  }

  /** `Path("projects") / project / service`. */
  function ServiceDirOf(project: string, service: string): string {
    "projects/" + project + "/" + service
  }

  /** The observers after the watcher loop has gone through `names`: one more for
      every name other than `self` whose directory exists, watching it. */
  function Watches(names: seq<string>, self: string, project: string, dirs: set<string>,
                   obs: map<string, string>): map<string, string>
    decreases |names|
  {
    if names == [] then obs
    else
      var w := Watches(names[..|names| - 1], self, project, dirs, obs);
      var s := names[|names| - 1];
      if s != self && ServiceDirOf(project, s) in dirs then w[s := ServiceDirOf(project, s)] else w
  }

  /** The watched services are the ones already watched and the other names whose
      directory exists; each new observer watches its service's directory. */
  lemma {:induction false} WatchesExactly(names: seq<string>, self: string, project: string,
                                          dirs: set<string>, obs: map<string, string>)
    ensures forall s :: s in Watches(names, self, project, dirs, obs) <==>
      s in obs || (s in names && s != self && ServiceDirOf(project, s) in dirs)
    ensures forall s :: s in Watches(names, self, project, dirs, obs) ==>
      Watches(names, self, project, dirs, obs)[s] ==
        if s in names && s != self && ServiceDirOf(project, s) in dirs then ServiceDirOf(project, s) else obs[s]
    decreases |names|
  {
    if names != [] {
      var init := names[..|names| - 1];
      WatchesExactly(init, self, project, dirs, obs);
      assert names == init + [names[|names| - 1]];
    }
  }

  /** Starting with no observers, only services of the port table other than `self`
      are watched: never `self`, never `business`. */
  lemma WatchedArePeers(self: string, project: string, dirs: set<string>)
    ensures forall s :: s in Watches(Keys(ServicePorts), self, project, dirs, map[]) <==>
      s in Peers(self) && ServiceDirOf(project, s) in dirs
    ensures self !in Watches(Keys(ServicePorts), self, project, dirs, map[])
    ensures "business" !in Watches(Keys(ServicePorts), self, project, dirs, map[])
  {
    WatchesExactly(Keys(ServicePorts), self, project, dirs, map[]);
    PeersExactly(self);
  }

  /** A callback handed to `asyncio.create_task`, with the value it is called on. */
  datatype Task = Task(callback: string, data: Json)

  /** The tasks scheduled when `data` is handed to the callbacks `cbs`: each callback
      once, in registration order. */
  function Tasks(cbs: seq<string>, data: Json): (r: seq<Task>)
    ensures |r| == |cbs| && forall i :: 0 <= i < |cbs| ==> r[i] == Task(cbs[i], data)
  {
    seq(|cbs|, i requires 0 <= i < |cbs| => Task(cbs[i], data))
  }

  /** A file as `json.load` sees it. */
  datatype Document = Parsed(value: Json) | Unparseable

  /** A watchdog event: the path it concerns and whether that path is a directory. */
  datatype FileEvent = FileEvent(srcPath: string, isDirectory: bool)

  class ServiceCommunicator {
    const serviceName: string
    const projectName: string
    const port: int
    /** `service_ports`. */
    const ports: seq<(string, int)>
    /** The observers started, by watched service: the directory each one watches. */
    var observers: map<string, string>
    /** `callbacks["file_changed"]` and `callbacks["notification"]`. */
    var fileChanged: seq<string>
    var notification: seq<string>
    /** The files and directories on disk. */
    var disk: map<string, Document>
    var dirs: set<string>
    /** The REST calls made and the callbacks scheduled, in order. */
    var sent: seq<Post>
    var scheduled: seq<Task>

    constructor(serviceName: string, projectName: string, port: int,
                disk: map<string, Document>, dirs: set<string>)
      ensures this.serviceName == serviceName && this.projectName == projectName && this.port == port
      ensures ports == ServicePorts
      ensures observers == map[] && fileChanged == [] && notification == []
      ensures this.disk == disk && this.dirs == dirs && sent == [] && scheduled == []
    {
      this.serviceName := serviceName;
      this.projectName := projectName;
      this.port := port;
      ports := ServicePorts;
      observers := map[];
      fileChanged := [];
      notification := [];
      this.disk := disk;
      this.dirs := dirs;
      sent := [];
      scheduled := [];
    }

    /** The services this one broadcasts to and watches: the other keys of its port
        table, in table order (`Peers(serviceName)` for the table it is built with). */
    function Targets(): (r: seq<string>)
      ensures forall s :: s in r <==> s in Keys(ports) && s != serviceName
      ensures Distinct(Keys(ports)) ==> Distinct(r)
      ensures ports == ServicePorts ==> r == Peers(serviceName)
    {
      OthersMembers(Keys(ports), serviceName);
      Others(Keys(ports), serviceName)
    }

    /** `Path("projects") / project_name / service`. */
    function ServiceDir(service: string): string {
      ServiceDirOf(projectName, service)
    }

    /** The state file of this service. */
    function StatePath(): string {
      ServiceDir(serviceName) + "/state.json"
    }

    /** One observer for every other service of the port table whose directory
        exists, watching that directory; observers already present stay. */
    method SetupWatchers()
      modifies this`observers
      ensures observers == Watches(Keys(ports), serviceName, projectName, dirs, old(observers))
    {
      var keys := Keys(ports);
      var i := 0;
      while i < |ports|
        invariant i <= |ports|
        invariant observers == Watches(keys[..i], serviceName, projectName, dirs, old(observers))
      {
        var service := ports[i].0;
        assert keys[..i + 1][..i] == keys[..i];
        if service != serviceName {
          var servicePath := ServiceDir(service);
          if servicePath in dirs {
            observers := observers[service := servicePath];
          }
        }
        i := i + 1;
      }
      assert keys[..i] == keys;
    }

    /** What `json.load` on a path gives: the value, or the exception a missing or
        malformed file raises. */
    function LoadFile(path: string): Result<Json>
      reads this`disk
    {
      if path !in disk then Failure("no such file")
      else match disk[path]
        case Parsed(v) => Success(v)
        case Unparseable => Failure("invalid JSON")
    }

    /** The tasks a change to `srcPath` schedules: for a `.json` file that loads,
        every file-change callback once with the loaded value; otherwise none. */
    function FileChangeTasks(srcPath: string): (r: seq<Task>)
      reads this`disk, this`fileChanged
      ensures !EndsWith(srcPath, ".json") || LoadFile(srcPath).Failure? ==> r == []
      ensures EndsWith(srcPath, ".json") && LoadFile(srcPath).Success? ==>
        |r| == |fileChanged| &&
        forall i :: 0 <= i < |r| ==> r[i] == Task(fileChanged[i], LoadFile(srcPath).value)
    {
      if EndsWith(srcPath, ".json") then
        match LoadFile(srcPath)
        case Success(data) => Tasks(fileChanged, data)
        case Failure(_) => []
      else []
    }

    method HandleFileChange(srcPath: string)
      modifies this`scheduled
      ensures scheduled == old(scheduled) + FileChangeTasks(srcPath)
    {
      if EndsWith(srcPath, ".json") {
        var loaded := LoadFile(srcPath);
        if loaded.Success? {
          var data := loaded.value;
          var i := 0;
          while i < |fileChanged|
            invariant i <= |fileChanged|
            invariant scheduled == old(scheduled) + Tasks(fileChanged[..i], data)
          {
            assert Tasks(fileChanged[..i + 1], data) == Tasks(fileChanged[..i], data) + [Task(fileChanged[i], data)];
            scheduled := scheduled + [Task(fileChanged[i], data)];
            i := i + 1;
          }
          assert fileChanged[..i] == fileChanged;
        }
      }
    }

    /** A POST of `data` to `service`: nothing for a name outside the port table;
        otherwise one post, whose reply (or `None` when the call raised, which is
        caught) is returned. */
    method NotifyService(service: string, data: Json, net: Post -> Option<Json>) returns (reply: Option<Json>)
      modifies this`sent
      ensures Lookup(ports, service).None? ==> sent == old(sent) && reply == None
      ensures Lookup(ports, service).Some? ==>
        var post := Post(service, Lookup(ports, service).value, data);
        sent == old(sent) + [post] && reply == net(post)
      ensures sent == old(sent) + PostFor(ports, service, data)
    {
      var port := Lookup(ports, service);
      if port.None? {
        return None;
      }
      var post := Post(service, port.value, data);
      sent := sent + [post];
      reply := net(post);
    }

    /** One notification of every other service of the port table, in table order;
        a peer whose call fails does not stop the others. */
    method BroadcastUpdate(data: Json, net: Post -> Option<Json>)
      modifies this`sent
      ensures sent == old(sent) + Notifications(ports, Targets(), data)
    {
      var keys := Keys(ports);
      var i := 0;
      while i < |ports|
        invariant i <= |ports|
        invariant sent == old(sent) + Notifications(ports, Others(keys[..i], serviceName), data)
      {
        var service := ports[i].0;
        ghost var before := sent;
        if service != serviceName {
          var _ := NotifyService(service, data, net);
        }
        BroadcastLogStep(ports, i, serviceName, data, old(sent), before, sent);
        i := i + 1;
      }
      assert keys[..i] == keys;
    }

    method OnFileChanged(callback: string)
      modifies this`fileChanged
      ensures fileChanged == old(fileChanged) + [callback]
    {
      fileChanged := fileChanged + [callback];
    }

    method OnNotification(callback: string)
      modifies this`notification
      ensures notification == old(notification) + [callback]
    {
      notification := notification + [callback];
    }

    /** An incoming notification: every notification callback scheduled once with its
        body, in registration order, and `{"status": "ok"}` as the reply. */
    method HandleNotification(data: Json) returns (response: Json)
      modifies this`scheduled
      ensures scheduled == old(scheduled) + Tasks(notification, data)
      ensures response == JObj(map["status" := JStr("ok")])
    {
      var i := 0;
      while i < |notification|
        invariant i <= |notification|
        invariant scheduled == old(scheduled) + Tasks(notification[..i], data)
      {
        assert Tasks(notification[..i + 1], data) == Tasks(notification[..i], data) + [Task(notification[i], data)];
        scheduled := scheduled + [Task(notification[i], data)];
        i := i + 1;
      }
      assert notification[..i] == notification;
      response := JObj(map["status" := JStr("ok")]);
    }

    /** Overwrites the state file; loading it afterwards gives the state back. */
    method SaveState(state: Json)
      modifies this`disk
      ensures disk == old(disk)[StatePath() := Parsed(state)]
      ensures LoadState() == Success(Some(state))
    {
      disk := disk[StatePath() := Parsed(state)];
    }

    /** The saved state, `None` when there is no state file, or the exception a
        malformed one raises. */
    function LoadState(): (r: Result<Option<Json>>)
      reads this`disk
      ensures StatePath() !in disk ==> r == Success(None)
      ensures StatePath() in disk ==> (r.Success? <==> disk[StatePath()].Parsed?)
      ensures r.Success? && r.value.Some? ==> disk[StatePath()] == Parsed(r.value.value)
    {
      if StatePath() in disk then
        match LoadFile(StatePath())
        case Success(v) => Success(Some(v))
        case Failure(e) => Failure(e)
      else Success(None)
    }
  }

  /** The watchdog handler of one watched directory: directory events are ignored,
      any other create or modify event goes to the communicator's file-change
      handler. */
  class ServiceFileHandler {
    const basePath: string
    const owner: ServiceCommunicator

    constructor(basePath: string, owner: ServiceCommunicator)
      ensures this.basePath == basePath && this.owner == owner
    {
      this.basePath := basePath;
      this.owner := owner;
    }

    method OnModified(event: FileEvent)
      modifies owner`scheduled
      ensures owner.scheduled ==
        old(owner.scheduled) + (if event.isDirectory then [] else owner.FileChangeTasks(event.srcPath))
    {
      if event.isDirectory {
        return;
      }
      owner.HandleFileChange(event.srcPath);
    }

    method OnCreated(event: FileEvent)
      modifies owner`scheduled
      ensures owner.scheduled ==
        old(owner.scheduled) + (if event.isDirectory then [] else owner.FileChangeTasks(event.srcPath))
    {
      if event.isDirectory {
        return;
      }
      owner.HandleFileChange(event.srcPath);
    }
  }
}
