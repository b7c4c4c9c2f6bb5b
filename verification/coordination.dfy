/**
 * What the cluster code sees of the coordination service: result codes, create
 * requests, the classification both create callbacks apply to a result code, and an
 * abstract namespace (a set of node paths) against which the retrying creates are
 * checked for idempotence.
 */
module Coordination {
  import opened Util

  /** KeeperException.Code values the cluster code distinguishes; the rest are Other. */
  datatype Code = Ok | ConnectionLoss | NodeExists | NoNode | Other(rc: int)

  datatype CreateMode = Persistent | Ephemeral

  /** One create call: path, payload bytes (as a string) and mode. */
  datatype CreateRequest = CreateRequest(path: string, data: string, mode: CreateMode)

  /** setData(path, data, version) as the status update issues it. */
  datatype SetDataRequest = SetDataRequest(path: string, data: string, version: int)

  /** The two checked exceptions a synchronous call can throw. */
  datatype Failure = Interrupted | KeeperError(code: Code)

  /** How a synchronous call that returns nothing ended. */
  datatype CallOutcome = Returned | Threw(failure: Failure)

  /** How a synchronous getData ended. */
  datatype ReadOutcome = Data(payload: string) | ReadFailed(failure: Failure)

  /** n copies of one request: what a create re-issued n times leaves in the log. */
  function Repeated(req: CreateRequest, n: nat): (s: seq<CreateRequest>)
    ensures |s| == n && forall k | 0 <= k < n :: s[k] == req
  {
    if n == 0 then [] else Repeated(req, n - 1) + [req]
  }

  lemma ConcatAssoc(a: seq<CreateRequest>, b: seq<CreateRequest>, c: seq<CreateRequest>)
    ensures (a + b) + c == a + (b + c)
  {
  }

  /** What a create callback does with its result code. */
  datatype CallbackAction = Retry | ReportCreated | ReportExists | ReportError

  /**
   * The switch in both create callbacks: re-issue the same create on CONNECTIONLOSS,
   * report OK and NODEEXISTS as success, print any other code as an error.
   */
  function OnCreateResult(rc: Code): (a: CallbackAction)
    ensures a == Retry <==> rc == ConnectionLoss
    ensures a == ReportError <==> !(rc == Ok || rc == NodeExists || rc == ConnectionLoss)
    ensures a == ReportCreated <==> rc == Ok
  {
    match rc
    case ConnectionLoss => Retry
    case Ok => ReportCreated
    case NodeExists => ReportExists
    case _ => ReportError
  }

  // ---------------------------------------------------------------------------
  // An abstract namespace: the set of node paths that exist.

  type Store = set<string>

  /** Index of the last '/' in p, or 0 when there is none. */
  function LastSlash(p: string): (k: nat)
    ensures k <= |p|
    ensures |p| > 0 ==> k < |p|
  {
    if |p| == 0 then 0
    else if p[|p| - 1] == '/' then |p| - 1
    else LastSlash(p[..|p| - 1])
  }

  /** The parent of a node path; "" stands for the root, which always exists. */
  function Parent(p: string): string
  {
    p[..LastSlash(p)]
  }

  predicate ParentPresent(store: Store, p: string)
  {
    Parent(p) == "" || Parent(p) in store
  }

  /** What the server does with a create of p: refuse without a parent, refuse a duplicate, or add p. */
  function ServerCreate(store: Store, p: string): (Code, Store)
  {
    if !ParentPresent(store, p) then (NoNode, store)
    else if p in store then (NodeExists, store)
    else (Ok, store + {p})
  }

  /**
   * How one attempt can go wrong on the way: the connection is lost before the server
   * applies the create, or after it applied it but before the reply arrives.
   */
  datatype Fault = Delivered | LostBeforeApply | LostAfterApply

  /** One create attempt: the code the client sees and the namespace afterwards. */
  function Attempt(store: Store, p: string, f: Fault): (Code, Store)
  {
    match f
    case Delivered => ServerCreate(store, p)
    case LostBeforeApply => (ConnectionLoss, store)
    case LostAfterApply => (ConnectionLoss, ServerCreate(store, p).1)
  }

  datatype ChainResult = ChainResult(store: Store, attempts: nat, last: Code)

  /**
   * A create followed by its callback, which re-issues it while the code is
   * CONNECTIONLOSS. The i-th attempt meets faults[i]; once the faults run out the
   * attempt is delivered.
   */
  function CreateChain(store: Store, p: string, faults: seq<Fault>): (r: ChainResult)
    ensures 1 <= r.attempts <= |faults| + 1
    ensures OnCreateResult(r.last) != Retry
    decreases |faults|
  {
    var (rc, after) := Attempt(store, p, if faults == [] then Delivered else faults[0]);
    if OnCreateResult(rc) == Retry && faults != [] then
      var rest := CreateChain(after, p, faults[1..]);
      ChainResult(rest.store, rest.attempts + 1, rest.last)
    else
      ChainResult(after, 1, rc)
  }

  /** The number of leading faults that lose the connection. */
  function LeadingLosses(faults: seq<Fault>): (n: nat)
    ensures n <= |faults|
  {
    if faults == [] || faults[0] == Delivered then 0 else 1 + LeadingLosses(faults[1..])
  }

  lemma ParentIsShorter(p: string)
    requires |p| > 0
    ensures Parent(p) != p
  {
  }

  /**
   * Whatever connection losses hit it, a retried create ends with p present exactly
   * when its parent is, never reports an error when the parent exists, and retries
   * once per lost connection.
   */
  lemma {:induction false} CreateChainOutcome(store: Store, p: string, faults: seq<Fault>)
    requires |p| > 0
    ensures var r := CreateChain(store, p, faults);
      && r.store == (if ParentPresent(store, p) then store + {p} else store)
      && (ParentPresent(store, p) ==> r.last == Ok || r.last == NodeExists)
      && (ParentPresent(store, p) && p in store ==> r.last == NodeExists)
      && (!ParentPresent(store, p) ==> r.last == NoNode)
      && r.attempts == 1 + LeadingLosses(faults)
    decreases |faults|
  {
    ParentIsShorter(p);
    if faults != [] && faults[0] != Delivered {
      var after := Attempt(store, p, faults[0]).1;
      assert ParentPresent(after, p) == ParentPresent(store, p);
      CreateChainOutcome(after, p, faults[1..]);
    }
  }

  /** A path "/name" with no further '/' sits directly under the root. */
  lemma {:induction false} TopLevelParent(p: string)
    requires |p| > 0 && p[0] == '/' && '/' !in p[1..]
    ensures Parent(p) == ""
    decreases |p|
  {
    if |p| > 1 {
      assert p[|p| - 1] in p[1..];
      var init := p[..|p| - 1];
      assert init[1..] == p[1..|p| - 1];
      assert forall c :: c in init[1..] ==> c in p[1..];
      TopLevelParent(init);
      assert LastSlash(p) == LastSlash(init);
    }
  }

  /** Appending a slash-free name to a path ending in '/' makes that path the parent. */
  lemma {:induction false} ChildParent(dir: string, name: string)
    requires |dir| > 0 && dir[|dir| - 1] == '/' && '/' !in name
    ensures Parent(dir + name) == dir[..|dir| - 1]
    decreases |name|
  {
    if |name| == 0 {
      assert dir + name == dir;
    } else {
      var p := dir + name;
      assert p[|p| - 1] == name[|name| - 1];
      assert p[..|p| - 1] == dir + name[..|name| - 1];
      ChildParent(dir, name[..|name| - 1]);
    }
  }
}
