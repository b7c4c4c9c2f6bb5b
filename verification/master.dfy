/**
 * cluster.instance.Master: leader registration through the ephemeral /master node,
 * bootstrap of the persistent namespace by a new leader, the create callback that
 * retries on connection loss, the watcher that re-runs the election when /master is
 * deleted, and one step of the master's command loop.
 *
 * The coordination service's answers are inputs: a sequence of outcomes for the
 * successive synchronous creates of /master and another for the successive getData
 * calls of existMaster. Where the Java loops would spin forever because every answer
 * is a retryable failure, the model stops when the supplied answers run out and says
 * so (Undecided, Exhausted).
 */
module MasterNode {
  import opened Util
  import opened Coordination
  import opened DataModel
  import Constants
  import Numerals

  // ---------------------------------------------------------------------------
  // Leader registration

  /** What existMaster ended with; next is the index of the first getData answer left. */
  datatype ExistOutcome = Found(payload: string, next: nat) | InterruptedAt(next: nat) | Exhausted

  predicate IsKeeperError(r: ReadOutcome)
  {
    r.ReadFailed? && r.failure.KeeperError?
  }

  /**
   * existMaster from answer `from` on: every KeeperException is swallowed and getData
   * is tried again, data ends it with true, an interrupt ends it with false.
   */
  function ExistMasterOutcome(gets: seq<ReadOutcome>, from: nat): (o: ExistOutcome)
    requires from <= |gets|
    ensures o.Found? ==> from < o.next <= |gets| && gets[o.next - 1] == Data(o.payload)
    ensures o.InterruptedAt? ==> from < o.next <= |gets| && gets[o.next - 1] == ReadFailed(Interrupted)
    ensures !o.Exhausted? ==> forall k | from <= k < o.next - 1 :: IsKeeperError(gets[k])
    ensures o.Exhausted? ==> forall k | from <= k < |gets| :: IsKeeperError(gets[k])
    decreases |gets| - from
  {
    if from == |gets| then Exhausted
    else match gets[from]
      case Data(p) => Found(p, from + 1)
      case ReadFailed(Interrupted) => InterruptedAt(from + 1)
      case ReadFailed(KeeperError(_)) => ExistMasterOutcome(gets, from + 1)
  }

  /** How masterRegistration ended and how many creates of /master it issued. */
  datatype RegistrationOutcome = Decided(leader: bool, attempts: nat) | Undecided(attempts: nat)

  /**
   * masterRegistration from create answer i and getData answer j on. A create that
   * returns makes this master the leader; NodeExists, an interrupt or any other
   * KeeperException makes it a follower; a connection loss consults existMaster,
   * which settles on "not leader" whenever it finds /master, whatever its payload,
   * and lets the create be retried when it is interrupted.
   */
  function Registration(creates: seq<CallOutcome>, gets: seq<ReadOutcome>, i: nat, j: nat): (o: RegistrationOutcome)
    requires i <= |creates| && j <= |gets|
    ensures i <= o.attempts <= |creates|
    ensures o.Decided? ==> i < o.attempts
    decreases |creates| - i
  {
    if i == |creates| then Undecided(i)
    else match creates[i]
      case Returned => Decided(true, i + 1)
      case Threw(KeeperError(ConnectionLoss)) =>
        (match ExistMasterOutcome(gets, j)
         case Found(_, _) => Decided(false, i + 1)
         case InterruptedAt(next) => Registration(creates, gets, i + 1, next)
         case Exhausted => Undecided(i + 1))
      case Threw(_) => Decided(false, i + 1)
  }

  predicate IsConnectionLoss(o: CallOutcome)
  {
    o == Threw(KeeperError(ConnectionLoss))
  }

  /**
   * A registration that settles makes this master the leader exactly when the last
   * create it issued returned normally, and every create before that one lost the
   * connection; so at most one create of /master ever succeeds per registration.
   */
  lemma {:induction false} LeaderIffCreateReturned(creates: seq<CallOutcome>, gets: seq<ReadOutcome>, i: nat, j: nat)
    requires i <= |creates| && j <= |gets|
    ensures var o := Registration(creates, gets, i, j);
      && i <= o.attempts <= |creates|
      && (o.Decided? ==> i < o.attempts && (o.leader <==> creates[o.attempts - 1] == Returned))
      && (o.Decided? ==> forall k | i <= k < o.attempts - 1 :: IsConnectionLoss(creates[k]))
      && (o.Undecided? ==> forall k | i <= k < o.attempts :: IsConnectionLoss(creates[k]))
    decreases |creates| - i
  {
    if i < |creates| && IsConnectionLoss(creates[i]) {
      var e := ExistMasterOutcome(gets, j);
      if e.InterruptedAt? {
        LeaderIffCreateReturned(creates, gets, i + 1, e.next);
      }
    }
  }

  /**
   * A create whose reply was lost although the server made this master the owner of
   * /master still ends the registration as a follower: existMaster reads back this
   * master's own id, and the loop then forces isLeader to false.
   */
  lemma OwnMarkerAfterLostReplyIsNotLeadership(creates: seq<CallOutcome>, gets: seq<ReadOutcome>, i: nat, j: nat, serverId: string)
    requires i < |creates| && j <= |gets|
    requires creates[i] == Threw(KeeperError(ConnectionLoss))
    requires ExistMasterOutcome(gets, j).Found? && ExistMasterOutcome(gets, j).payload == serverId
    ensures Registration(creates, gets, i, j) == Decided(false, i + 1)
  {
  }

  /** The create masterRegistration issues on every attempt. */
  function MasterCreate(serverId: string): CreateRequest
  {
    CreateRequest(Constants.GetValue(Constants.MasterPath), serverId, Ephemeral)
  }

  // ---------------------------------------------------------------------------
  // Bootstrap

  /** The persistent parents bootstrap creates, in order. */
  const BootstrapPaths: seq<string> := ["/workers", "/assign", "/tasks", "/status"]

  function ParentCreate(path: string, data: string): CreateRequest
  {
    CreateRequest(path, data, Persistent)
  }

  function BootstrapRequests(): (s: seq<CreateRequest>)
    ensures |s| == |BootstrapPaths|
    ensures forall k | 0 <= k < |s| :: s[k] == ParentCreate(BootstrapPaths[k], "")
  {
    [ParentCreate(BootstrapPaths[0], ""), ParentCreate(BootstrapPaths[1], ""),
     ParentCreate(BootstrapPaths[2], ""), ParentCreate(BootstrapPaths[3], "")]
  }

  /**
   * The bootstrap paths against the constants table: the first is WORKER_PATH and the
   * others are ASSIGN_PATH and STATUS_PATH, but the third, "/tasks", is not TASK_PATH
   * ("/task").
   */
  lemma BootstrapPathsAgainstConstants()
    ensures BootstrapPaths[0] == Constants.GetValue(Constants.WorkerPath)
    ensures BootstrapPaths[1] == Constants.GetValue(Constants.AssignPath)
    ensures BootstrapPaths[2] != Constants.GetValue(Constants.TaskPath)
    ensures BootstrapPaths[3] == Constants.GetValue(Constants.StatusPath)
  {
  }

  lemma BootstrapPathsTopLevel()
    ensures forall k | 0 <= k < |BootstrapPaths| :: |BootstrapPaths[k]| > 0 && Parent(BootstrapPaths[k]) == ""
  {
    TopLevelParent("/workers");
    TopLevelParent("/assign");
    TopLevelParent("/tasks");
    TopLevelParent("/status");
  }

  datatype BootstrapResult = BootstrapResult(store: Store, codes: seq<Code>)

  /**
   * The namespace after the creates of paths[k..], each retried by the callback under
   * its own faults, and the final code each create chain ended with.
   */
  function CreateAll(store: Store, paths: seq<string>, faults: seq<seq<Fault>>, k: nat): (r: BootstrapResult)
    requires |faults| == |paths| && k <= |paths|
    ensures |r.codes| == |paths| - k
    ensures forall m | 0 <= m < |r.codes| :: OnCreateResult(r.codes[m]) != Retry
    decreases |paths| - k
  {
    if k == |paths| then BootstrapResult(store, [])
    else
      var r := CreateChain(store, paths[k], faults[k]);
      var rest := CreateAll(r.store, paths, faults, k + 1);
      BootstrapResult(rest.store, [r.last] + rest.codes)
  }

  /**
   * Bootstrap against namespace `store`, the create of BootstrapPaths[m] meeting the
   * faults faults[m]: one final code per parent, none of them one the callback retries.
   */
  function BootstrapOn(store: Store, faults: seq<seq<Fault>>): (r: BootstrapResult)
    requires |faults| == |BootstrapPaths|
    ensures |r.codes| == |BootstrapPaths|
    ensures forall m | 0 <= m < |r.codes| :: OnCreateResult(r.codes[m]) != Retry
  {
    CreateAll(store, BootstrapPaths, faults, 0)
  }

  /** The creates the callbacks re-issue during BootstrapOn, parent after parent. */
  function BootstrapRetries(store: Store, faults: seq<seq<Fault>>, k: nat): seq<CreateRequest>
    requires |faults| == |BootstrapPaths| && k <= |BootstrapPaths|
    decreases |BootstrapPaths| - k
  {
    if k == |BootstrapPaths| then []
    else
      var r := CreateChain(store, BootstrapPaths[k], faults[k]);
      Repeated(ParentCreate(BootstrapPaths[k], ""), r.attempts - 1)
        + BootstrapRetries(r.store, faults, k + 1)
  }

  /** One parent's chain followed by the rest: the unfolding both drivers and lemmas step through. */
  lemma BootstrapStep(store: Store, faults: seq<seq<Fault>>, k: nat)
    requires |faults| == |BootstrapPaths| && k < |BootstrapPaths|
    ensures var c := CreateChain(store, BootstrapPaths[k], faults[k]);
      var rest := CreateAll(c.store, BootstrapPaths, faults, k + 1);
      && CreateAll(store, BootstrapPaths, faults, k) == BootstrapResult(rest.store, [c.last] + rest.codes)
      && BootstrapRetries(store, faults, k)
         == Repeated(ParentCreate(BootstrapPaths[k], ""), c.attempts - 1) + BootstrapRetries(c.store, faults, k + 1)
  {
  }

  lemma {:induction false} CreateAllOutcome(store: Store, paths: seq<string>, faults: seq<seq<Fault>>, k: nat)
    requires |faults| == |paths| && k <= |paths|
    requires forall m | 0 <= m < |paths| :: |paths[m]| > 0 && Parent(paths[m]) == ""
    ensures var r := CreateAll(store, paths, faults, k);
      && r.store == store + (set m | k <= m < |paths| :: paths[m])
      && |r.codes| == |paths| - k
      && forall m | 0 <= m < |r.codes| :: r.codes[m] == Ok || r.codes[m] == NodeExists
    decreases |paths| - k
  {
    if k < |paths| {
      var r := CreateChain(store, paths[k], faults[k]);
      CreateChainOutcome(store, paths[k], faults[k]);
      CreateAllOutcome(r.store, paths, faults, k + 1);
      var later := set m | k + 1 <= m < |paths| :: paths[m];
      assert (set m | k <= m < |paths| :: paths[m]) == {paths[k]} + later;
    }
  }

  /**
   * Bootstrap against any namespace, under any connection losses, never reports an
   * error and leaves exactly the four parents added; run again (a new leader after a
   * failover) it changes nothing and still reports no error.
   */
  lemma BootstrapIdempotent(store: Store, first: seq<seq<Fault>>, second: seq<seq<Fault>>)
    requires |first| == |BootstrapPaths| && |second| == |BootstrapPaths|
    ensures var once := BootstrapOn(store, first);
      var twice := BootstrapOn(once.store, second);
      && once.store == store + {"/workers", "/assign", "/tasks", "/status"}
      && twice.store == once.store
      && forall m | 0 <= m < |BootstrapPaths| ::
           OnCreateResult(once.codes[m]) != ReportError && twice.codes[m] == NodeExists
  {
    BootstrapPathsTopLevel();
    var once := BootstrapOn(store, first);
    CreateAllOutcome(store, BootstrapPaths, first, 0);
    CreateAllOutcome(once.store, BootstrapPaths, second, 0);
    assert (set m | 0 <= m < |BootstrapPaths| :: BootstrapPaths[m]) == {"/workers", "/assign", "/tasks", "/status"};
    SecondBootstrapFindsAll(once.store, second, 0);
  }

  lemma {:induction false} SecondBootstrapFindsAll(store: Store, faults: seq<seq<Fault>>, k: nat)
    requires |faults| == |BootstrapPaths| && k <= |BootstrapPaths|
    requires forall m | 0 <= m < |BootstrapPaths| :: BootstrapPaths[m] in store
    ensures var r := CreateAll(store, BootstrapPaths, faults, k);
      r.store == store && |r.codes| == |BootstrapPaths| - k
      && forall m | 0 <= m < |r.codes| :: r.codes[m] == NodeExists
    decreases |BootstrapPaths| - k
  {
    if k < |BootstrapPaths| {
      BootstrapPathsTopLevel();
      var p := BootstrapPaths[k];
      CreateChainOutcome(store, p, faults[k]);
      assert ParentPresent(store, p) && p in store;
      var r := CreateChain(store, p, faults[k]);
      assert r.store == store && r.last == NodeExists;
      SecondBootstrapFindsAll(store, faults, k + 1);
      var rest := CreateAll(store, BootstrapPaths, faults, k + 1);
      assert CreateAll(store, BootstrapPaths, faults, k).codes == [r.last] + rest.codes;
    }
  }

  // ---------------------------------------------------------------------------
  // The command loop

  /** The branch the master's loop takes for a command. */
  datatype MasterDispatch = AddFileCommand | RequestFileCommand | RemoveFileCommand | IncorrectInput

  /**
   * The equals-chain of the master loop: ADD_FILE, then REQUEST_FILE, then
   * REMOVE_FILE, else "Incorrect input". Because the three names differ, each branch
   * is taken exactly for its own name.
   */
  function Dispatch(action: string): (d: MasterDispatch)
    ensures d == AddFileCommand <==> action == Constants.GetValue(Constants.AddFile)
    ensures d == RequestFileCommand <==> action == Constants.GetValue(Constants.RequestFile)
    ensures d == RemoveFileCommand <==> action == Constants.GetValue(Constants.RemoveFile)
  {
    Constants.FileCommandsDistinct();
    if action == Constants.GetValue(Constants.AddFile) then AddFileCommand
    else if action == Constants.GetValue(Constants.RequestFile) then RequestFileCommand
    else if action == Constants.GetValue(Constants.RemoveFile) then RemoveFileCommand
    else IncorrectInput
  }

  /** Watched event types delivered to process. */
  datatype EventType = NoneEvent | NodeCreated | NodeDeleted | NodeDataChanged | NodeChildrenChanged

  class Master {
    const serverId: string
    var isLeader: bool
    var comDataList: seq<CommMessage>
    /** Every create this master has issued, in order. */
    var creates: seq<CreateRequest>

    /** serverId is String.valueOf of a random int. */
    constructor (random: int)
      requires Numerals.IntMin <= random <= Numerals.IntMax
      ensures serverId == Numerals.IntToString(random)
      ensures !isLeader && comDataList == [] && creates == []
    {
      serverId := Numerals.IntToString(random);
      isLeader := false;
      comDataList := [];
      creates := [];
    }

    method ExistMaster(gets: seq<ReadOutcome>, from: nat) returns (o: ExistOutcome)
      requires from <= |gets|
      modifies this`isLeader
      ensures o == ExistMasterOutcome(gets, from)
      ensures isLeader == if o.Found? then o.payload == serverId else old(isLeader)
    {
      var k := from;
      while k < |gets|
        invariant from <= k <= |gets|
        invariant ExistMasterOutcome(gets, k) == ExistMasterOutcome(gets, from)
        invariant isLeader == old(isLeader)
        decreases |gets| - k
      {
        match gets[k] {
          case Data(p) =>
            isLeader := p == serverId;
            return Found(p, k + 1);
          case ReadFailed(Interrupted) =>
            return InterruptedAt(k + 1);
          case ReadFailed(KeeperError(_)) =>
        }
        k := k + 1;
      }
      return Exhausted;
    }

    method MasterRegistration(outcomes: seq<CallOutcome>, gets: seq<ReadOutcome>) returns (decided: bool)
      modifies this`isLeader, this`creates
      ensures var o := Registration(outcomes, gets, 0, 0);
        && decided == o.Decided?
        && isLeader == (if decided then o.leader else old(isLeader))
        && creates == old(creates) + Repeated(MasterCreate(serverId), o.attempts)
    {
      var i: nat, j: nat := 0, 0;
      while i < |outcomes|
        invariant i <= |outcomes| && j <= |gets|
        invariant Registration(outcomes, gets, i, j) == Registration(outcomes, gets, 0, 0)
        invariant creates == old(creates) + Repeated(MasterCreate(serverId), i)
        invariant isLeader == old(isLeader)
        decreases |outcomes| - i
      {
        creates := creates + [MasterCreate(serverId)];
        match outcomes[i] {
          case Returned =>
            isLeader := true;
            return true;
          case Threw(KeeperError(ConnectionLoss)) =>
            var e := ExistMaster(gets, j);
            if e.Found? {
              isLeader := false;
              return true;
            } else if e.Exhausted? {
              return false;
            }
            j := e.next;
          case Threw(_) =>
            isLeader := false;
            return true;
        }
        i := i + 1;
      }
      return false;
    }

    method RunForMaster(outcomes: seq<CallOutcome>, gets: seq<ReadOutcome>) returns (decided: bool)
      modifies this`isLeader, this`creates
      ensures var o := Registration(outcomes, gets, 0, 0);
        && decided == o.Decided?
        && isLeader == (if decided then o.leader else old(isLeader))
        && creates == old(creates) + Repeated(MasterCreate(serverId), o.attempts)
                      + (if decided && isLeader then BootstrapRequests() else [])
    {
      decided := MasterRegistration(outcomes, gets);
      if decided && isLeader {
        Bootstrap();
      }
    }

    method Bootstrap()
      modifies this`creates
      ensures creates == old(creates) + BootstrapRequests()
    {
      CreateParent(BootstrapPaths[0], "");
      CreateParent(BootstrapPaths[1], "");
      CreateParent(BootstrapPaths[2], "");
      CreateParent(BootstrapPaths[3], "");
    }

    method CreateParent(path: string, data: string)
      modifies this`creates
      ensures creates == old(creates) + [ParentCreate(path, data)]
    {
      creates := creates + [ParentCreate(path, data)];
    }

    /** createParentCallback: the same path and data are re-issued on CONNECTIONLOSS only. */
    method CreateParentCallback(rc: Code, path: string, ctx: string) returns (a: CallbackAction)
      modifies this`creates
      ensures a == OnCreateResult(rc)
      ensures creates == old(creates) + if rc == ConnectionLoss then [ParentCreate(path, ctx)] else []
    {
      a := OnCreateResult(rc);
      if a == Retry {
        CreateParent(path, ctx);
      }
    }

    /**
     * The replies to one create of path, already issued, from a service holding the
     * nodes `store` whose successive replies meet `faults`: each reply goes to
     * createParentCallback, which re-issues the create on CONNECTIONLOSS. The chain
     * ends as CreateChain says, and the log gains one create per retry.
     */
    method AnswerParentCreate(path: string, data: string, store: Store, faults: seq<Fault>)
      returns (last: Code, after: Store)
      modifies this`creates
      ensures var r := CreateChain(store, path, faults);
        && last == r.last && after == r.store
        && creates == old(creates) + Repeated(ParentCreate(path, data), r.attempts - 1)
      decreases |faults|
    {
      var attempt := Attempt(store, path, if faults == [] then Delivered else faults[0]);
      var a := CreateParentCallback(attempt.0, path, data);
      if a == Retry && faults != [] {
        ghost var retried := creates;
        last, after := AnswerParentCreate(path, data, attempt.1, faults[1..]);
        var n := CreateChain(attempt.1, path, faults[1..]).attempts;
        assert creates == retried + Repeated(ParentCreate(path, data), n - 1);
        assert [ParentCreate(path, data)] + Repeated(ParentCreate(path, data), n - 1)
            == Repeated(ParentCreate(path, data), n);
      } else {
        last, after := attempt.0, attempt.1;
      }
    }

    /**
     * bootstrap followed by the replies to its four creates, answered parent after
     * parent: the namespace and the final codes are those of BootstrapOn, and the log
     * holds the four creates followed by their retries.
     */
    method BootstrapAgainst(store: Store, faults: seq<seq<Fault>>) returns (result: BootstrapResult)
      requires |faults| == |BootstrapPaths|
      modifies this`creates
      ensures result == BootstrapOn(store, faults)
      ensures creates == old(creates) + BootstrapRequests() + BootstrapRetries(store, faults, 0)
    {
      Bootstrap();
      result := AnswerParentCreates(store, faults, 0);
    }

    /** The replies to the creates of BootstrapPaths[k..], each chain answered in turn. */
    method AnswerParentCreates(store: Store, faults: seq<seq<Fault>>, k: nat) returns (result: BootstrapResult)
      requires |faults| == |BootstrapPaths| && k <= |BootstrapPaths|
      modifies this`creates
      ensures result == CreateAll(store, BootstrapPaths, faults, k)
      ensures creates == old(creates) + BootstrapRetries(store, faults, k)
      decreases |BootstrapPaths| - k
    {
      if k == |BootstrapPaths| {
        return BootstrapResult(store, []);
      }
      BootstrapStep(store, faults, k);
      ghost var before := creates;
      ghost var chain := CreateChain(store, BootstrapPaths[k], faults[k]);
      ghost var retries := Repeated(ParentCreate(BootstrapPaths[k], ""), chain.attempts - 1);
      var last, after := AnswerParentCreate(BootstrapPaths[k], "", store, faults[k]);
      var rest := AnswerParentCreates(after, faults, k + 1);
      result := BootstrapResult(rest.store, [last] + rest.codes);
      ConcatAssoc(before, retries, BootstrapRetries(after, faults, k + 1));
    }

    /** process: a NodeDeleted event re-runs the election; every other event is ignored. */
    method Process(event: EventType, outcomes: seq<CallOutcome>, gets: seq<ReadOutcome>)
      modifies this`isLeader, this`creates
      ensures event != NodeDeleted ==> isLeader == old(isLeader) && creates == old(creates)
      ensures event == NodeDeleted ==>
        var o := Registration(outcomes, gets, 0, 0);
        && isLeader == (if o.Decided? then o.leader else old(isLeader))
        && creates == old(creates) + Repeated(MasterCreate(serverId), o.attempts)
                      + (if o.Decided? && isLeader then BootstrapRequests() else [])
    {
      if event == NodeDeleted {
        var _ := RunForMaster(outcomes, gets);
      }
    }

    /**
     * One pass of the master loop: nothing when the queue is empty, otherwise the head
     * is removed and classified. None of the branches changes anything else.
     */
    method Step() returns (handled: Option<MasterDispatch>)
      modifies this`comDataList
      ensures old(comDataList) == [] ==> handled == None && comDataList == []
      ensures old(comDataList) != [] ==>
        && handled == Some(Dispatch(old(comDataList)[0].action))
        && comDataList == old(comDataList)[1..]
    {
      if comDataList == [] {
        handled := None;
      } else {
        var comData := comDataList[0];
        comDataList := comDataList[1..];
        handled := Some(Dispatch(comData.action));
      }
    }
  }
}
