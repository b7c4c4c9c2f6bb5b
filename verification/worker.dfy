/**
 * cluster.instance.Worker: registration under the coordination namespace with its
 * retrying callback, status publication guarded against superseded statuses, the
 * listing of registered workers, and one step of each of the two processing loops
 * (commands, and file events from the local receiver).
 *
 * The sender's task list, the file-event queue, the file-storage table and the
 * command queue are fields the steps update in place. The scheduler's answer, the
 * local host address and the coordination service's answers are parameters.
 */
module WorkerNode {
  import opened Util
  import opened Coordination
  import opened DataModel
  import Constants
  import Numerals
  import MasterNode

  /** Integer.parseInt(FILE_RECEIVE_PORT.getValue()): the port every transfer targets. */
  function FileReceivePort(): (port: int)
    ensures port == 10000
  {
    Constants.PortsParse();
    Numerals.ParseInt(Constants.GetValue(Constants.FileReceivePort)).value
  }

  /** Integer.parseInt(CLIENT_COMMUNICATION_PORT.getValue()): the port acknowledgements carry. */
  function ClientCommunicationPort(): (port: int)
    ensures port == 21000
  {
    Constants.PortsParse();
    Numerals.ParseInt(Constants.GetValue(Constants.ClientCommunicationPort)).value
  }

  /** String.format("worker-%s", serverId) on the constructor argument; null prints as "null". */
  function WorkerName(serverIdArg: Option<string>): (name: string)
    ensures |name| >= 7 && name[..7] == "worker-"
    ensures name[7..] == if serverIdArg.Some? then serverIdArg.value else "null"
  {
    "worker-" + (if serverIdArg.Some? then serverIdArg.value else "null")
  }

  /**
   * The node register creates: under "/worker", not under WORKER_PATH. For an id
   * without '/' its parent is "/worker" itself.
   */
  function RegisterPath(serverId: string): (p: string)
    ensures |p| > 8 && p[..8] == "/worker/"
    ensures '/' !in serverId ==> Parent(p) == "/worker"
  {
    var child := "worker-" + serverId;
    var p := "/worker/" + child;
    if '/' in serverId then p
    else
      assert '/' !in child by {
        assert forall k | 7 <= k < |child| :: child[k] == serverId[k - 7];
      }
      ChildParent("/worker/", child);
      p
  }

  /** The node updateStatus writes. */
  function StatusPath(name: string): string
  {
    "/workers/" + name
  }

  /** String.format("%s/%s", parent, child), as getWorkers builds each child's path. */
  function ChildPath(parent: string, child: string): string
  {
    parent + "/" + child
  }

  // ---------------------------------------------------------------------------
  // Status publication

  /** The write updateStatus(s) issues: one, exactly when s is still the current status. */
  function StatusWrites(current: Option<string>, s: string, name: string): (w: seq<SetDataRequest>)
    ensures |w| <= 1 && (|w| == 1 <==> current == Some(s))
    ensures forall k | 0 <= k < |w| :: w[k] == SetDataRequest(StatusPath(name), s, -1)
  {
    if current == Some(s) then [SetDataRequest(StatusPath(name), s, -1)] else []
  }

  /** What reaches the status code: a setStatus call, or the reply to a status write. */
  datatype StatusEvent = SetStatusCall(status: string) | WriteReply(rc: Code, ctx: string)

  datatype StatusTrace = StatusTrace(status: Option<string>, writes: seq<SetDataRequest>)

  /** The status field and the writes issued after a series of calls and replies. */
  function StatusRun(current: Option<string>, events: seq<StatusEvent>, name: string): (t: StatusTrace)
    ensures |t.writes| <= |events|
    decreases |events|
  {
    if events == [] then StatusTrace(current, [])
    else
      var next := if events[0].SetStatusCall? then Some(events[0].status) else current;
      var w := match events[0]
        case SetStatusCall(s) => StatusWrites(next, s, name)
        case WriteReply(rc, ctx) => if rc == ConnectionLoss then StatusWrites(current, ctx, name) else [];
      var rest := StatusRun(next, events[1..], name);
      StatusTrace(rest.status, w + rest.writes)
  }

  function CountSetStatus(events: seq<StatusEvent>): (n: nat)
    ensures n <= |events|
  {
    if events == [] then 0 else (if events[0].SetStatusCall? then 1 else 0) + CountSetStatus(events[1..])
  }

  /**
   * Whatever replies arrive, every write goes to the worker's status node, every
   * setStatus call has its own status written, and the last write issued carries the
   * current status, so a retried write can never leave a superseded status as the last
   * one sent.
   */
  lemma {:induction false} LastWriteCarriesCurrentStatus(current: Option<string>, events: seq<StatusEvent>, name: string)
    ensures var t := StatusRun(current, events, name);
      && |t.writes| >= CountSetStatus(events)
      && (forall k | 0 <= k < |t.writes| :: t.writes[k].path == StatusPath(name))
      && (forall k | 0 <= k < |events| && events[k].SetStatusCall? ::
            SetDataRequest(StatusPath(name), events[k].status, -1) in t.writes)
      && (t.writes != [] ==> Some(t.writes[|t.writes| - 1].data) == t.status)
      && (t.writes == [] ==> t.status == current)
    decreases |events|
  {
    if events != [] {
      var next := if events[0].SetStatusCall? then Some(events[0].status) else current;
      LastWriteCarriesCurrentStatus(next, events[1..], name);
      forall k | 0 <= k < |events| && events[k].SetStatusCall?
        ensures SetDataRequest(StatusPath(name), events[k].status, -1) in StatusRun(current, events, name).writes
      {
        if k > 0 {
          assert events[k] == events[1..][k - 1];
        }
      }
    }
  }

  // ---------------------------------------------------------------------------
  // The command loop

  /** The branch of the worker's command loop. */
  datatype WorkerCommand = SendFile | DeleteFile | AddReplica | AddReplicas | Unrecognised

  /** The equals-chain on the action: SEND first, then DELETE, ADD_REPLICA, ADD_REPLICAS. */
  function Classify(tags: CommTags, action: string): (c: WorkerCommand)
    ensures c == SendFile <==> action == tags.send
    ensures c == DeleteFile ==> action == tags.delete
    ensures c == AddReplica ==> action == tags.addReplica
    ensures c == AddReplicas ==> action == tags.addReplicas
    ensures c == Unrecognised <==>
      action !in {tags.send, tags.delete, tags.addReplica, tags.addReplicas}
  {
    if action == tags.send then SendFile
    else if action == tags.delete then DeleteFile
    else if action == tags.addReplica then AddReplica
    else if action == tags.addReplicas then AddReplicas
    else Unrecognised
  }

  /** The transfer a SEND command asks for: the command's destination, the file-receive port, its file. */
  function SendTask(m: CommMessage): FileTask
  {
    FileTask(m.actionDestinationIp, FileReceivePort(), m.sourceFile)
  }

  /**
   * The transfers the command loop hands to the sender for msgs, taken in order:
   * one for each SEND command and none for anything else.
   */
  function CommandTasks(tags: CommTags, msgs: seq<CommMessage>): (tasks: seq<FileTask>)
    ensures |tasks| <= |msgs|
    ensures forall t | t in tasks :: t.port == 10000
    ensures forall t | t in tasks :: exists m | m in msgs :: m.action == tags.send && t == SendTask(m)
    ensures forall m | m in msgs && m.action == tags.send :: SendTask(m) in tasks
    decreases |msgs|
  {
    if msgs == [] then []
    else
      var rest := CommandTasks(tags, msgs[1..]);
      assert forall m | m in msgs[1..] :: m in msgs;
      if Classify(tags, msgs[0].action) == SendFile then [SendTask(msgs[0])] + rest else rest
  }

  /**
   * Processing a queue in two parts gives the tasks of the first part followed by
   * those of the second: steps taken one after another hand the sender the transfers
   * in the order the commands were queued.
   */
  lemma {:induction false} CommandTasksAppend(tags: CommTags, a: seq<CommMessage>, b: seq<CommMessage>)
    ensures CommandTasks(tags, a + b) == CommandTasks(tags, a) + CommandTasks(tags, b)
    decreases |a|
  {
    if a == [] {
      assert a + b == b;
    } else {
      assert (a + b)[0] == a[0];
      assert (a + b)[1..] == a[1..] + b;
      CommandTasksAppend(tags, a[1..], b);
    }
  }

  /** The replica set a primary records: the scheduled workers and itself. */
  function ReplicaSet(replicaIps: seq<string>, myIp: string): (r: set<string>)
    ensures myIp in r
    ensures forall k | 0 <= k < |replicaIps| :: replicaIps[k] in r
    ensures forall ip | ip in r :: ip == myIp || ip in replicaIps
  {
    (set ip | ip in replicaIps) + {myIp}
  }

  predicate Distinct(s: seq<string>)
  {
    forall a, b | 0 <= a < b < |s| :: s[a] != s[b]
  }

  /**
   * When the scheduler keeps its promise (no duplicates, never the caller), the
   * recorded replica set has one member per scheduled worker plus the primary.
   */
  lemma {:induction false} ReplicaSetSize(replicaIps: seq<string>, myIp: string)
    requires Distinct(replicaIps) && myIp !in replicaIps
    ensures |ReplicaSet(replicaIps, myIp)| == |replicaIps| + 1
    decreases |replicaIps|
  {
    if replicaIps == [] {
      assert ReplicaSet(replicaIps, myIp) == {myIp};
    } else {
      var last := replicaIps[|replicaIps| - 1];
      var init := replicaIps[..|replicaIps| - 1];
      assert Distinct(init);
      ReplicaSetSize(init, myIp);
      assert last !in ReplicaSet(init, myIp);
      assert ReplicaSet(replicaIps, myIp) == ReplicaSet(init, myIp) + {last};
    }
  }

  /** The acknowledgement the file-event loop queues after placing a primary replica. */
  function AckToMaster(tags: CommTags, myIp: string, e: FileObject): (m: CommMessage)
    ensures m.port == 21000 && m.action == tags.addFileAck
    ensures m.sourceIp == myIp && m.destinationIp == "" && m.actionDestinationIp == e.senderIp
    ensures m.sourceFile == e.filePath && m.destinationFile == e.filePath
  {
    CommMessage(myIp, "", e.senderIp, tags.addFileAck, e.filePath, e.filePath, ClientCommunicationPort())
  }

  // ---------------------------------------------------------------------------
  // Registration and the registry

  /**
   * The registry as written: the node register creates is never one of the children
   * getWorkers reads, while the node updateStatus writes is one of them.
   */
  lemma RegisteredNodeNotListed(serverId: string, child: string)
    ensures RegisterPath(serverId) != ChildPath(Constants.GetValue(Constants.WorkerPath), child)
    ensures StatusPath(child) == ChildPath(Constants.GetValue(Constants.WorkerPath), child)
  {
    var listed := ChildPath(Constants.GetValue(Constants.WorkerPath), child);
    assert listed[7] == 's';
    assert RegisterPath(serverId)[7] == '/';
  }

  /**
   * register's create needs the parent "/worker", which bootstrap does not create: on a
   * namespace a master has bootstrapped from nothing, the create chain ends with
   * NONODE, the callback prints an error, and no worker node appears. The chain is
   * the one register follows when the local address resolves on every retry.
   */
  lemma RegisterAfterBootstrapFails(bootFaults: seq<seq<Fault>>, serverId: string, faults: seq<Fault>)
    requires |bootFaults| == |MasterNode.BootstrapPaths|
    requires '/' !in serverId
    ensures var store := MasterNode.BootstrapOn({}, bootFaults).store;
      var r := CreateChain(store, RegisterPath(serverId), faults);
      && r.store == store
      && RegisterPath(serverId) !in r.store
      && r.last == NoNode
      && OnCreateResult(r.last) == ReportError
  {
    var store := MasterNode.BootstrapOn({}, bootFaults).store;
    MasterNode.BootstrapIdempotent({}, bootFaults, bootFaults);
    assert store == {"/workers", "/assign", "/tasks", "/status"};
    var p := RegisterPath(serverId);
    CreateChainOutcome(store, p, faults);
    assert p !in store by {
      assert |p| > |"/workers"| || p != "/workers";
    }
  }

  /** Outcome of one command-loop pass. */
  datatype CommandOutcome = NullQueue | Idle | Handled(command: WorkerCommand)

  /** Outcome of one file-event-loop pass. */
  datatype FileEventOutcome = NoEvent | OtherAction | Placed | PlacedAckNullQueue

  class Worker {
    const serverId: string
    const name: string
    const myIp: string
    const tags: CommTags
    var status: Option<string>
    /** Never assigned after construction, so it stays null (None). */
    var comDataList: Option<seq<CommMessage>>
    var fileSystemObjectQueue: seq<FileObject>
    var fileStorageInfo: map<string, FileStorageRecord>
    /** The sender's task list, which the loops only append to. */
    var fileTasks: seq<FileTask>
    /** Every status write issued, in order. */
    var statusWrites: seq<SetDataRequest>
    /** Every registration create issued, in order. */
    var creates: seq<CreateRequest>

    /**
     * The id is the argument, or String.valueOf of a random int when it is null; the
     * name is built from the argument itself.
     */
    constructor (serverIdArg: Option<string>, random: int, myIp: string, tags: CommTags, objectQueue: seq<FileObject>)
      requires Numerals.IntMin <= random <= Numerals.IntMax
      ensures serverId == if serverIdArg.Some? then serverIdArg.value else Numerals.IntToString(random)
      ensures name == WorkerName(serverIdArg)
      ensures this.myIp == myIp && this.tags == tags
      ensures status == None && comDataList == None && fileSystemObjectQueue == objectQueue
      ensures fileStorageInfo == map[] && fileTasks == [] && statusWrites == [] && creates == []
    {
      serverId := if serverIdArg.Some? then serverIdArg.value else Numerals.IntToString(random);
      name := WorkerName(serverIdArg);
      this.myIp := myIp;
      this.tags := tags;
      status := None;
      comDataList := None;
      fileSystemObjectQueue := objectQueue;
      fileStorageInfo := map[];
      fileTasks := [];
      statusWrites := [];
      creates := [];
    }

    method SetStatus(s: string)
      modifies this`status, this`statusWrites
      ensures status == Some(s)
      ensures statusWrites == old(statusWrites) + [SetDataRequest(StatusPath(name), s, -1)]
    {
      status := Some(s);
      UpdateStatus(s);
    }

    method UpdateStatus(s: string)
      modifies this`statusWrites
      ensures statusWrites == old(statusWrites) + StatusWrites(status, s, name)
    {
      if Some(s) == status {
        statusWrites := statusWrites + [SetDataRequest(StatusPath(name), s, -1)];
      }
    }

    /** statusUpdateCallback: on CONNECTIONLOSS the write is retried through updateStatus. */
    method StatusUpdateCallback(rc: Code, ctx: string)
      modifies this`statusWrites
      ensures statusWrites == old(statusWrites) + if rc == ConnectionLoss then StatusWrites(status, ctx, name) else []
    {
      if rc == ConnectionLoss {
        UpdateStatus(ctx);
      }
    }

    /** register: no create at all when the local address cannot be resolved. */
    method Register(localHost: Option<string>)
      modifies this`creates
      ensures creates == old(creates)
        + if localHost.Some? then [CreateRequest(RegisterPath(serverId), localHost.value, Persistent)] else []
    {
      if localHost.Some? {
        creates := creates + [CreateRequest(RegisterPath(serverId), localHost.value, Persistent)];
      }
    }

    /** createWorkerCallback: register again on CONNECTIONLOSS; OK and NODEEXISTS end it. */
    method CreateWorkerCallback(rc: Code, localHost: Option<string>) returns (a: CallbackAction)
      modifies this`creates
      ensures a == OnCreateResult(rc)
      ensures creates == old(creates)
        + if rc == ConnectionLoss && localHost.Some?
          then [CreateRequest(RegisterPath(serverId), localHost.value, Persistent)] else []
    {
      a := OnCreateResult(rc);
      if a == Retry {
        Register(localHost);
      }
    }

    /**
     * The replies to one registration create, already issued with address ip, from a
     * service holding the nodes `store` whose successive replies meet `faults`: each
     * reply goes to createWorkerCallback, which registers again on CONNECTIONLOSS.
     * The chain ends as CreateChain says, and the log gains one create per retry.
     */
    method AnswerRegister(ip: string, store: Store, faults: seq<Fault>) returns (last: Code, after: Store)
      modifies this`creates
      ensures var r := CreateChain(store, RegisterPath(serverId), faults);
        && last == r.last && after == r.store
        && creates == old(creates) + Repeated(CreateRequest(RegisterPath(serverId), ip, Persistent), r.attempts - 1)
      decreases |faults|
    {
      var attempt := Attempt(store, RegisterPath(serverId), if faults == [] then Delivered else faults[0]);
      var a := CreateWorkerCallback(attempt.0, Some(ip));
      if a == Retry && faults != [] {
        ghost var retried := creates;
        last, after := AnswerRegister(ip, attempt.1, faults[1..]);
        var req := CreateRequest(RegisterPath(serverId), ip, Persistent);
        var n := CreateChain(attempt.1, RegisterPath(serverId), faults[1..]).attempts;
        assert creates == retried + Repeated(req, n - 1);
        assert [req] + Repeated(req, n - 1) == Repeated(req, n);
      } else {
        last, after := attempt.0, attempt.1;
      }
    }

    /**
     * register with a resolved address, then the replies to it: the namespace and the
     * final code are those of CreateChain, and the log holds one create per attempt.
     */
    method RegisterAgainst(ip: string, store: Store, faults: seq<Fault>) returns (last: Code, after: Store)
      modifies this`creates
      ensures var r := CreateChain(store, RegisterPath(serverId), faults);
        && last == r.last && after == r.store
        && creates == old(creates) + Repeated(CreateRequest(RegisterPath(serverId), ip, Persistent), r.attempts)
    {
      Register(Some(ip));
      ghost var issued := creates;
      last, after := AnswerRegister(ip, store, faults);
      var req := CreateRequest(RegisterPath(serverId), ip, Persistent);
      var n := CreateChain(store, RegisterPath(serverId), faults).attempts;
      assert creates == issued + Repeated(req, n - 1);
      assert [req] + Repeated(req, n - 1) == Repeated(req, n);
    }

    /**
     * setStatus calls and status-write replies applied in order: the status field and
     * the writes issued are those StatusRun gives.
     */
    method ApplyStatusEvents(events: seq<StatusEvent>)
      modifies this`status, this`statusWrites
      ensures var t := StatusRun(old(status), events, name);
        status == t.status && statusWrites == old(statusWrites) + t.writes
      decreases |events|
    {
      if events != [] {
        match events[0] {
          case SetStatusCall(s) => SetStatus(s);
          case WriteReply(rc, ctx) => StatusUpdateCallback(rc, ctx);
        }
        ApplyStatusEvents(events[1..]);
      }
    }

    /**
     * getWorkers: list WORKER_PATH, then read each child in listing order; the first
     * failure propagates. answers holds the replies to the successive getData calls.
     */
    method GetWorkers(listing: Result<seq<string>, Failure>, answers: seq<ReadOutcome>)
      returns (r: Result<seq<WorkerInstance>, Failure>, paths: seq<string>)
      requires listing.Success? ==> |answers| >= |listing.value|
      ensures listing.Failure? ==> r == Failure(listing.error) && paths == []
      ensures listing.Success? ==>
        var names := listing.value;
        && |paths| <= |names|
        && (forall k | 0 <= k < |paths| :: paths[k] == ChildPath(Constants.GetValue(Constants.WorkerPath), names[k]))
        && (r.Success? <==> forall k | 0 <= k < |names| :: answers[k].Data?)
        && (r.Success? ==>
              && |paths| == |names| && |r.value| == |names|
              && forall k | 0 <= k < |names| :: r.value[k] == WorkerInstance(answers[k].payload, names[k]))
        && (r.Failure? ==>
              && 0 < |paths| && answers[|paths| - 1].ReadFailed?
              && r.error == answers[|paths| - 1].failure
              && forall k | 0 <= k < |paths| - 1 :: answers[k].Data?)
    {
      paths := [];
      if listing.Failure? {
        return Failure(listing.error), paths;
      }
      var names := listing.value;
      var workers: seq<WorkerInstance> := [];
      var i := 0;
      while i < |names|
        invariant 0 <= i <= |names|
        invariant |paths| == i && |workers| == i
        invariant forall k | 0 <= k < i :: paths[k] == ChildPath(Constants.GetValue(Constants.WorkerPath), names[k])
        invariant forall k | 0 <= k < i :: answers[k].Data? && workers[k] == WorkerInstance(answers[k].payload, names[k])
      {
        var workerPath := ChildPath(Constants.GetValue(Constants.WorkerPath), names[i]);
        paths := paths + [workerPath];
        match answers[i] {
          case ReadFailed(f) =>
            return Failure(f), paths;
          case Data(ip) =>
            workers := workers + [WorkerInstance(ip, names[i])];
        }
        i := i + 1;
      }
      r := Success(workers);
    }

    /**
     * One pass of the command loop. A null queue throws (NullQueue); an empty queue
     * only sleeps; otherwise the head is removed and a SEND becomes one transfer to
     * the command's destination on the file-receive port. Every other action does
     * nothing.
     */
    method CommandStep() returns (r: CommandOutcome)
      modifies this`comDataList, this`fileTasks
      ensures old(comDataList).None? ==> r == NullQueue && comDataList == None && fileTasks == old(fileTasks)
      ensures old(comDataList) == Some([]) ==> r == Idle && comDataList == Some([]) && fileTasks == old(fileTasks)
      ensures old(comDataList).Some? && old(comDataList).value != [] ==>
        var m := old(comDataList).value[0];
        && r == Handled(Classify(tags, m.action))
        && comDataList == Some(old(comDataList).value[1..])
        && fileTasks == old(fileTasks) + CommandTasks(tags, [m])
        && fileTasks == old(fileTasks)
             + if m.action == tags.send then [FileTask(m.actionDestinationIp, 10000, m.sourceFile)] else []
    {
      if comDataList.None? {
        return NullQueue;
      }
      if comDataList.value == [] {
        return Idle;
      }
      var comData := comDataList.value[0];
      comDataList := Some(comDataList.value[1..]);
      var command := Classify(tags, comData.action);
      match command {
        case SendFile =>
          fileTasks := fileTasks + [SendTask(comData)];
        case DeleteFile =>
        case AddReplica =>
        case AddReplicas =>
        case Unrecognised =>
      }
      r := Handled(command);
    }

    /**
     * One pass of the file-event loop, given the scheduler's answer. A
     * PUT_PRIMARY_REPLICA event fans out one transfer per scheduled worker, records the
     * file as a primary replica held here, and queues an acknowledgement; with the
     * command queue still null that last append throws after the first two effects.
     * Any other event is dropped.
     */
    method FileEventStep(replicaIps: seq<string>) returns (r: FileEventOutcome)
      modifies this`fileSystemObjectQueue, this`fileTasks, this`fileStorageInfo, this`comDataList
      ensures old(fileSystemObjectQueue) == [] ==>
        && r == NoEvent && fileSystemObjectQueue == [] && fileTasks == old(fileTasks)
        && fileStorageInfo == old(fileStorageInfo) && comDataList == old(comDataList)
      ensures old(fileSystemObjectQueue) != [] ==>
        fileSystemObjectQueue == old(fileSystemObjectQueue)[1..]
      ensures old(fileSystemObjectQueue) != [] && old(fileSystemObjectQueue)[0].actionType != tags.putPrimaryReplica ==>
        && r == OtherAction && fileTasks == old(fileTasks)
        && fileStorageInfo == old(fileStorageInfo) && comDataList == old(comDataList)
      ensures old(fileSystemObjectQueue) != [] && old(fileSystemObjectQueue)[0].actionType == tags.putPrimaryReplica ==>
        var e := old(fileSystemObjectQueue)[0];
        && |fileTasks| == |old(fileTasks)| + |replicaIps|
        && fileTasks[..|old(fileTasks)|] == old(fileTasks)
        && (forall k | 0 <= k < |replicaIps| ::
              fileTasks[|old(fileTasks)| + k] == FileTask(replicaIps[k], 10000, e.filePath))
        && fileStorageInfo == old(fileStorageInfo)[e.filePath :=
             FileStorageRecord(e.filePath, myIp, 0, true, ReplicaSet(replicaIps, myIp))]
        && (old(comDataList).Some? ==>
              r == Placed && comDataList == Some(old(comDataList).value + [AckToMaster(tags, myIp, e)]))
        && (old(comDataList).None? ==> r == PlacedAckNullQueue && comDataList == None)
    {
      if fileSystemObjectQueue == [] {
        return NoEvent;
      }
      var fileSystemData := fileSystemObjectQueue[0];
      fileSystemObjectQueue := fileSystemObjectQueue[1..];
      if fileSystemData.actionType != tags.putPrimaryReplica {
        return OtherAction;
      }
      var i := 0;
      while i < |replicaIps|
        invariant 0 <= i <= |replicaIps|
        invariant fileSystemObjectQueue == old(fileSystemObjectQueue)[1..]
        invariant fileStorageInfo == old(fileStorageInfo) && comDataList == old(comDataList)
        invariant |fileTasks| == |old(fileTasks)| + i
        invariant fileTasks[..|old(fileTasks)|] == old(fileTasks)
        invariant forall k | 0 <= k < i ::
          fileTasks[|old(fileTasks)| + k] == FileTask(replicaIps[k], 10000, fileSystemData.filePath)
      {
        fileTasks := fileTasks + [FileTask(replicaIps[i], FileReceivePort(), fileSystemData.filePath)];
        i := i + 1;
      }
      var fileStorageLocalDataModel :=
        FileStorageRecord(fileSystemData.filePath, myIp, 0, true, ReplicaSet(replicaIps, myIp));
      fileStorageInfo := fileStorageInfo[fileSystemData.filePath := fileStorageLocalDataModel];
      var ackToMaster := AckToMaster(tags, myIp, fileSystemData);
      if comDataList.None? {
        return PlacedAckNullQueue;
      }
      comDataList := Some(comDataList.value + [ackToMaster]);
      r := Placed;
    }
  }
}
