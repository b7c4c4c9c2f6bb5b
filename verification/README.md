# Cluster control plane of a distributed file store, modelled in Dafny

The modelled system is a distributed file storage cluster. A Master wins
leadership by creating the ephemeral coordination node `/master`, and a new
leader then bootstraps the persistent namespace (`/workers`, `/assign`,
`/tasks`, `/status`). Workers register themselves, publish a status, and
declare two processing loops, of which only the command loop is started. The
command loop turns `SEND` commands into file
transfers. The file-event loop reacts to a newly stored primary replica: it
fans out transfers to the workers the scheduler chose, records the file in the
local storage table and queues an acknowledgement. Ports, the polling
interval, the master's action names (ADD_FILE, REQUEST_FILE, REMOVE_FILE) and
the path `getWorkers` lists (`WORKER_PATH`) come from the `Constants` enum.
The worker's action names (SEND, DELETE, ADD_REPLICA, ADD_REPLICAS,
PUT_PRIMARY_REPLICA) come from `CommunicationConstants` instead. `bootstrap`, `masterRegistration`,
`existMaster`, `register` and `updateStatus` write their paths as literals
instead.

The model keeps the source's own form:

- `constants.dfy` (`Constants`) is the enum and `getValue`, as a datatype and a
  function.
- `master.dfy` (`MasterNode`) and `worker.dfy` (`WorkerNode`) hold a class each.
  The fields the Java code updates are fields here. Lists and tables are `seq`
  and `map` fields that the methods reassign. Each loop body is one method.
- Every retry loop and every callback chain also has a specification function,
  and lemmas state what the source promises about it. A loop method is proved
  against its function in its own postcondition. A callback chain is proved
  against its function by a driver method that feeds the service's replies to
  the callback methods one after another: `AnswerParentCreate` and
  `BootstrapAgainst` for the master's creates (against `CreateChain` and
  `BootstrapOn`), `AnswerRegister` and `RegisterAgainst` for registration, and
  `ApplyStatusEvents` for the status writes (against `StatusRun`).
- `coordination.dfy` (`Coordination`) holds what the code sees of the
  coordination service: result codes, create requests, the classification both
  create callbacks apply to a result code, and an abstract namespace (a set of
  node paths) with injectable connection losses. The idempotence lemmas use it.
- `numerals.dfy` (`Numerals`) holds the JDK conversions the code relies on:
  `Integer.parseInt`, `Long.parseLong` and `String.valueOf(int)`.
- `datamodel.dfy` (`DataModel`) holds the message, task and record values.
  `util.dfy` (`Util`) holds Option and Result.

The coordination service's answers are inputs. The successive creates of
`/master`, the getData calls of `existMaster`, the listing and reads of
`getWorkers`, and the result code given to each callback are passed in as
sequences or parameters. Three more values are parameters: the scheduler's
chosen IPs, the local host address, and the random int behind a server id.

Facts of the code that the model keeps as written:

- `register` creates `/worker/worker-<id>`, but `getWorkers` lists `/workers`
  and `updateStatus` writes `/workers/<name>`. `RegisteredNodeNotListed`
  proves the registered node is never one that `getWorkers` reads.
  `RegisterAfterBootstrapFails` proves that, on a namespace a master has
  bootstrapped from nothing, the registration create for an id without '/'
  always ends in NONODE.
  The cause is that its parent `/worker` is never created.
- The worker's `name` is built from the constructor argument. A null argument
  gives `worker-null`, even though `serverId` is then a random number.
- `bootstrap` creates `/tasks`, while `TASK_PATH` is `/task`
  (`BootstrapPathsAgainstConstants`).
- The worker's `comDataList` is never initialised. It is `None` after
  construction, a command step on it reports `NullQueue`, and a
  `PUT_PRIMARY_REPLICA` event stores its transfers and its table entry before
  the append of the acknowledgement fails (`PlacedAckNullQueue`).
- `setStatus` assigns the field before calling `updateStatus`, so it always
  issues exactly one write, even when the status has not changed. The guard
  only drops connection-loss retries whose status has since been superseded.
- `WorkerFileSystemThread` is declared but never created or started: only
  `WorkerThread` is (Worker.java lines 41 and 52-53). `FileEventStep` models
  the body of that loop as written, but no running worker executes it.
- `MasterThread` is declared (Master.java line 48) but never created or
  started, and nothing in `Master` adds to its `comDataList`. `Step` models
  the body of that loop as written, but no running master executes it.
- `existMaster` reads `/master` without a watch (Master.java line 119), and no
  modelled file sets one on it. `process`'s NodeDeleted branch is reached only
  if `BasicWatcher`, which is not part of this model, sets such a watch.
- After a connection loss on the `/master` create, `existMaster` reading any
  payload (this master's own id included) ends registration with
  `isLeader == false` (`OwnMarkerAfterLostReplyIsNotLeadership`).

Intended behaviours the code does not implement. The model follows the code
in each case:

- A node that reads its own id back from `/master` is meant to be leader; the
  code forces follower.
- `setStatus` is meant to skip the write of an unchanged status; the code
  always writes.
- Workers are meant to register under `/workers`; the code uses `/worker`.
- DELETE, ADD_REPLICA and ADD_REPLICAS, and the master's unknown commands, are
  meant to be classified as unsupported; in the code they do nothing, apart
  from the master printing "Incorrect input".
- The primary replica is meant to go to the least-loaded worker; the code has
  no such choice.

## Model

| member | source | states |
|---|---|---|
| Constants.GetValue | src/main/java/usertool/Constants.java:39-41 | getValue returns the literal each constant is declared with; none is empty, and exactly the coordination paths start with "/" |
| Constants.GetValueInjective | src/main/java/usertool/Constants.java:3-45 | distinct enum constants carry distinct strings, so an equals-chain on them takes at most one branch |
| Constants.FileCommandsDistinct | src/main/java/usertool/Constants.java:25-27 | ADD_FILE, REMOVE_FILE and REQUEST_FILE are pairwise distinct |
| Constants.PortsParse | src/main/java/usertool/Constants.java:11-16 | each port constant is accepted by Integer.parseInt: 10000, 20000, 21000, 22000 |
| Constants.SleepIntervalParses | src/main/java/usertool/Constants.java:20 | SLEEP_INTERVAL is accepted by Long.parseLong and is 1000 |
| Constants.PathsAreTopLevel | src/main/java/usertool/Constants.java:29-33 | every path constant starts with "/" and has no further "/" |
| Numerals.ParseDecimal | src/main/java/cluster/instance/Worker.java:122 | a radix-10 parse succeeds only inside the type's range and on a numeral that starts with a digit or a sign |
| Numerals.ParseIntToString | src/main/java/cluster/instance/Master.java:25 | parsing String.valueOf(n) gives back n for every n in range |
| Numerals.IntToStringInjective | src/main/java/cluster/instance/Master.java:24-25 | distinct random ints give distinct server ids |
| Coordination.OnCreateResult | src/main/java/cluster/instance/Master.java:163-181 | a create callback retries exactly on CONNECTIONLOSS, reports success exactly on OK or NODEEXISTS, and reports an error for every other code |
| Coordination.CreateChain | src/main/java/cluster/instance/Master.java:155-181 | a create with its retrying callback issues at least one and at most one more than the lost connections, and ends on a code that is not retried |
| Coordination.CreateChainOutcome | src/main/java/cluster/instance/Master.java:155-181 | under any connection losses, a retried create ends with the node present iff its parent is; with a parent it reports only OK or NODEEXISTS, without one NONODE; it issues one more create than the leading lost connections |
| MasterNode.ExistMasterOutcome | src/main/java/cluster/instance/Master.java:115-128 | existMaster skips every KeeperException and ends at the first data (true) or the first interrupt (false) |
| MasterNode.Registration | src/main/java/cluster/instance/Master.java:130-153 | registration issues at least one create per decision and never more than it has answers for |
| MasterNode.LeaderIffCreateReturned | src/main/java/cluster/instance/Master.java:130-153 | a settled registration makes the master leader iff its last create of /master returned; every earlier create lost the connection |
| MasterNode.OwnMarkerAfterLostReplyIsNotLeadership | src/main/java/cluster/instance/Master.java:142-151 | at any point of a registration, a lost create reply followed by existMaster finding this master's own id ends the registration as follower, after that create |
| MasterNode.BootstrapPathsAgainstConstants | src/main/java/cluster/instance/Master.java:95-101 | the first bootstrap path is WORKER_PATH, the second ASSIGN_PATH, the fourth STATUS_PATH, and the third is not TASK_PATH |
| MasterNode.BootstrapIdempotent | src/main/java/cluster/instance/Master.java:95-101 | on any namespace and under any connection losses, bootstrap adds exactly the four parents and reports no error; a second bootstrap changes nothing and sees NODEEXISTS for each |
| MasterNode.CreateAll | src/main/java/cluster/instance/Master.java:163-181 | creating a run of parents, each retried by its callback, yields one final code per parent and none that the callback would retry |
| MasterNode.BootstrapOn | src/main/java/cluster/instance/Master.java:95-101 | bootstrap ends with four final codes, none of them CONNECTIONLOSS |
| MasterNode.Dispatch | src/main/java/cluster/instance/Master.java:74-90 | the master loop takes the ADD_FILE, REQUEST_FILE or REMOVE_FILE branch exactly when the action equals that name |
| MasterNode.Master.constructor | src/main/java/cluster/instance/Master.java:22-27 | the server id is the decimal string of the random int, the queue is empty, the master is not leader |
| MasterNode.Master.ExistMaster | src/main/java/cluster/instance/Master.java:115-128 | the method ends as ExistMasterOutcome says and sets isLeader to (payload == serverId) only when it found data |
| MasterNode.Master.MasterRegistration | src/main/java/cluster/instance/Master.java:130-153 | the method settles as Registration says, leaves isLeader as decided (unchanged if undecided) and issues one ephemeral create of /master with its id per attempt |
| MasterNode.Master.RunForMaster | src/main/java/cluster/instance/Master.java:29-35 | bootstrap's four creates are issued iff registration settled with isLeader |
| MasterNode.Master.Bootstrap | src/main/java/cluster/instance/Master.java:95-101 | persistent empty-data creates of /workers, /assign, /tasks, /status, in that order |
| MasterNode.Master.CreateParent | src/main/java/cluster/instance/Master.java:155-161 | one persistent create of the given path and data |
| MasterNode.Master.CreateParentCallback | src/main/java/cluster/instance/Master.java:163-181 | the same path and data are re-issued on CONNECTIONLOSS and nothing is issued otherwise |
| MasterNode.Master.AnswerParentCreate | src/main/java/cluster/instance/Master.java:163-181 | feeding the replies of a faulty service to createParentCallback ends with the namespace and code of CreateChain and re-issues the same create once per retry |
| MasterNode.Master.BootstrapAgainst | src/main/java/cluster/instance/Master.java:95-101 | bootstrap followed by its callbacks ends with the namespace and codes of BootstrapOn; the log holds the four creates and then their retries |
| MasterNode.Master.Process | src/main/java/cluster/instance/Master.java:107-113 | a NodeDeleted event re-runs the election and everything after it; any other event changes nothing |
| MasterNode.Master.Step | src/main/java/cluster/instance/Master.java:60-90 | an empty queue is left alone; otherwise exactly the head is removed, the rest stays in order, and the head is classified by Dispatch |
| WorkerNode.FileReceivePort | src/main/java/cluster/instance/Worker.java:122 | the transfer port parsed from FILE_RECEIVE_PORT is 10000 |
| WorkerNode.ClientCommunicationPort | src/main/java/cluster/instance/Worker.java:191 | the acknowledgement port parsed from CLIENT_COMMUNICATION_PORT is 21000 |
| WorkerNode.WorkerName | src/main/java/cluster/instance/Worker.java:37 | the name is "worker-" followed by the constructor argument, or by "null" when it is null |
| WorkerNode.RegisterPath | src/main/java/cluster/instance/Worker.java:208 | the registration node lies under "/worker/", and for an id without "/" its parent is "/worker" |
| WorkerNode.AckToMaster | src/main/java/cluster/instance/Worker.java:184-192 | the acknowledgement goes from this worker to the event's sender with ADD_FILE_ACK, the file path as source and destination, and port 21000 |
| WorkerNode.StatusWrites | src/main/java/cluster/instance/Worker.java:249-254 | updateStatus(s) issues one setData of s on /workers/name with version -1 iff s equals the current status, else none |
| WorkerNode.StatusRun | src/main/java/cluster/instance/Worker.java:239-254 | over any calls and replies, at most one write per event |
| WorkerNode.LastWriteCarriesCurrentStatus | src/main/java/cluster/instance/Worker.java:239-254 | every write goes to the status node, the status of every setStatus call appears among the writes, and the last write issued carries the current status |
| WorkerNode.Classify | src/main/java/cluster/instance/Worker.java:117-134 | the command loop takes the SEND branch iff the action is SEND; other branches only for their own tag; the last branch iff no tag matches |
| WorkerNode.CommandTasks | src/main/java/cluster/instance/Worker.java:117-125 | the transfers for a run of commands are on port 10000, each comes from a SEND command, and every SEND command yields its transfer |
| WorkerNode.CommandTasksAppend | src/main/java/cluster/instance/Worker.java:104-125 | commands handled one after another yield their transfers in queue order |
| WorkerNode.ReplicaSet | src/main/java/cluster/instance/Worker.java:170-177 | the recorded replica set is exactly the scheduled IPs plus the worker's own IP |
| WorkerNode.ReplicaSetSize | src/main/java/cluster/instance/Worker.java:160-177 | with distinct scheduled IPs that exclude the worker, the replica set has one more member than the schedule |
| WorkerNode.RegisteredNodeNotListed | src/main/java/cluster/instance/Worker.java:205-213 | the node register creates is never a child getWorkers reads, while the status node always is |
| WorkerNode.RegisterAfterBootstrapFails | src/main/java/cluster/instance/Worker.java:205-237 | on a namespace bootstrapped from nothing, registration under any connection losses ends in NONODE, reports an error and creates nothing |
| WorkerNode.Worker.constructor | src/main/java/cluster/instance/Worker.java:32-46 | the id is the argument or the decimal random int; the name is built from the argument; comDataList is null; the table is empty |
| WorkerNode.Worker.SetStatus | src/main/java/cluster/instance/Worker.java:94-97 | the status becomes s and exactly one write of s is issued |
| WorkerNode.Worker.UpdateStatus | src/main/java/cluster/instance/Worker.java:249-254 | the writes issued are those StatusWrites gives for the current status |
| WorkerNode.Worker.StatusUpdateCallback | src/main/java/cluster/instance/Worker.java:239-247 | only a CONNECTIONLOSS reply retries, and the retry is dropped when its status is superseded |
| WorkerNode.Worker.Register | src/main/java/cluster/instance/Worker.java:205-217 | one persistent create of /worker/worker-id with the local address, or none when the address cannot be resolved |
| WorkerNode.Worker.CreateWorkerCallback | src/main/java/cluster/instance/Worker.java:219-237 | registration is re-issued on CONNECTIONLOSS only; OK and NODEEXISTS end it |
| WorkerNode.Worker.AnswerRegister | src/main/java/cluster/instance/Worker.java:219-237 | feeding the replies of a faulty service to createWorkerCallback ends with the namespace and code of CreateChain and re-registers once per retry |
| WorkerNode.Worker.RegisterAgainst | src/main/java/cluster/instance/Worker.java:205-237 | register and its callbacks end as CreateChain says on /worker/worker-id, with one create per attempt |
| WorkerNode.Worker.ApplyStatusEvents | src/main/java/cluster/instance/Worker.java:239-254 | setStatus calls and write replies applied in order leave the status and the writes StatusRun gives |
| WorkerNode.Worker.GetWorkers | src/main/java/cluster/instance/Worker.java:77-87 | on success there is one (ip, name) entry per child of /workers in listing order, with ip the child's data; the first failure propagates after reading exactly the children before it |
| WorkerNode.Worker.CommandStep | src/main/java/cluster/instance/Worker.java:99-138 | a null queue throws, an empty queue changes nothing; otherwise exactly the head is removed and a SEND appends one transfer (destination, 10000, source file) while every other action changes nothing |
| WorkerNode.Worker.FileEventStep | src/main/java/cluster/instance/Worker.java:140-200 | for PUT_PRIMARY_REPLICA: one transfer per scheduled IP in order on port 10000; the table entry for the file becomes (myIp, 0, primary, scheduled IPs plus myIp) with other keys unchanged; one acknowledgement (myIp, "", sender, ADD_FILE_ACK, path, path, 21000) is appended. Any other event changes nothing but the event queue |

## Left out

- The `while (true)` loops, `Thread.sleep`, `synchronized` and the thread start-up: each loop body is one step method, and concurrency between the loops and the coordination client's callback thread is not modelled.
- `initWorker`, `shutDown`, `startZooKeeper`, `stopZooKeeper` and `BasicWatcher` (including `listNodes`): session management is outside the model, and the listing's outcome is an input of `GetWorkers`.
- The Worker's `process` watcher is empty in the source and has no model.
- `InetAddress.getLocalHost()` and `new Random().nextInt()` are parameters. The master loop's unused `selfIp` lookup is left out.
- `FileSystemScheduler.scheduleFile`: its answer is a parameter of `FileEventStep`, and `REPLICATION_NUM` and `RANDOM` are not defined in the enum. `WorkerSender` and `WorkerReceiver` are reduced to the task list the loop appends to and the event queue it reads.
- The values of `CommunicationConstants` (SEND, DELETE, ADD_REPLICA, ADD_REPLICAS, PUT_PRIMARY_REPLICA) and of `ADD_FILE_ACK` are not part of this model: they are the fields of the `CommTags` parameter.
- Console printing in the callbacks and the master loop: the callback's choice and the master's dispatch are returned as values instead.
- The master's ADD_FILE branch builds an unused placeholder message, so its model changes nothing.
- MasterNode.Registration and MasterNode.ExistMasterOutcome: when the supplied answers run out, they stop as Undecided or Exhausted. The Java loops would keep retrying there.
- MasterNode.Master.BootstrapAgainst: answers the four create chains one after another, as BootstrapOn does. In the source the replies of different parents may arrive interleaved.
- MasterNode.BootstrapIdempotent: the retries of the four parents are taken one path after another. In the source their callbacks may interleave. The four paths are independent, but no lemma states that interleaving does not matter.
- Coordination.CreateChain: once the given faults run out, the next attempt is delivered. A never-ending run of connection losses is not modelled.
- WorkerNode.RegisterAfterBootstrapFails: assumes the local address resolves on every retry. A failed lookup ends the chain without a create; Register models that case on its own.
- WorkerNode.Worker.RegisterAgainst: takes the resolved address for the same reason; the failed lookup is modelled by Register and CreateWorkerCallback.
- WorkerNode.Worker.GetWorkers: expects one getData reply per listed child. A getData that blocks forever is not modelled.
- Numerals.ParseDecimal: only ASCII digits are accepted. Character.digit also takes other Unicode decimal digits.
- Asynchronous delivery order of status writes at the server is not modelled. LastWriteCarriesCurrentStatus is about the order in which the writes are issued.
