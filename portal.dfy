/**
 * The coordinator: the registry of worker nodes, the dispatcher election
 * answered to every agent (Upgrade), and the counting of task replies (Wait).
 * The gRPC and NATS servers it starts, and Publish/Drain, are transport.
 */
module Portal {
  import opened Wrappers
  import opened Decimal
  import opened Proto
  import opened WaitGroups

  /** Subject on which submitted tasks are published to every node. */
  const TasksSubject: string := "tasks"

  /** Prefix of the per-task subject on which job units travel. */
  const TaskSubjectPrefix: string := "task."

  datatype PortalConfig = PortalConfig(host: string, grpcPort: int, queuePort: int)
  {
    /** Address of the gRPC service; reads back as (host, grpcPort). */
    function GrpcAddr(): (addr: string)
      ensures addr == host + ":" + FormatInt(grpcPort)
      ensures SplitHostPort(addr) == Some((host, grpcPort))
    {
      HostPort(host, grpcPort)
    }

    /** Address of the message bus; reads back as (host, queuePort). */
    function QueueAddr(): (addr: string)
      ensures addr == host + ":" + FormatInt(queuePort)
      ensures SplitHostPort(addr) == Some((host, queuePort))
    {
      HostPort(host, queuePort)
    }
  }

  /** fmt.Sprintf("task.%s", taskId): the task id can be read back from it. */
  function TaskSubject(taskId: string): (subject: string)
    ensures |subject| == |TaskSubjectPrefix| + |taskId|
    ensures subject[..|TaskSubjectPrefix|] == TaskSubjectPrefix
    ensures subject[|TaskSubjectPrefix|..] == taskId
    ensures subject != TasksSubject
  {
    var subject := TaskSubjectPrefix + taskId;
    assert subject[4] == '.';
    subject
  }

  datatype PortalError = NoRegisteredNode

  /** Reading a Go map: a missing key gives the zero value "". */
  function Lookup(m: map<string, string>, k: string): string
  {
    if k in m then m[k] else ""
  }

  /** The portal's registry: node ids in registration order and their addresses. */
  datatype Registry = Registry(nodes: seq<string>, addrs: map<string, string>)
  {
    /** Exactly the registered nodes have an address. */
    ghost predicate Valid()
    {
      forall n :: n in nodes <==> n in addrs
    }

    /** Register: append the id (even when already present) and (re)map its address. */
    function Registered(req: RegisterRequest): (r: Registry)
      ensures Valid() ==> r.Valid()
      ensures |r.nodes| == |nodes| + 1 && r.nodes[..|nodes|] == nodes && r.nodes[|nodes|] == req.id
      ensures r.addrs.Keys == addrs.Keys + {req.id} && r.addrs[req.id] == req.addr
      ensures forall k :: k in addrs && k != req.id ==> r.addrs[k] == addrs[k]
    {
      Registry(nodes + [req.id], addrs[req.id := req.addr])
    }

    /**
     * Upgrade: the first registered node dispatches every task, whoever asks.
     * With no node registered Go indexes an empty slice; that is an error here.
     */
    function Upgrade(req: UpgradeRequest): (r: Result<UpgradeReply, PortalError>)
      ensures r.Failure? <==> |nodes| == 0
      ensures r.Success? ==> r.value.nodeId == nodes[0]
      ensures r.Success? && Valid() ==> r.value.addr == addrs[nodes[0]]
      ensures r.Success? ==> r.value.subject == TaskSubject(req.taskId)
    {
      if |nodes| == 0 then Failure(NoRegisteredNode)
      else Success(UpgradeReply(nodes[0], Lookup(addrs, nodes[0]), TaskSubject(req.taskId)))
    }
  }

  const Empty := Registry([], map[])

  /** The registry after a series of Register calls, in order. */
  function RegisterAll(reg: Registry, reqs: seq<RegisterRequest>): Registry
  {
    if |reqs| == 0 then reg
    else RegisterAll(reg, reqs[..|reqs| - 1]).Registered(reqs[|reqs| - 1])
  }

  /** The address of the last of reqs that registers id, if any does. */
  function LastAddr(reqs: seq<RegisterRequest>, id: string): Option<string>
  {
    if |reqs| == 0 then None
    else if reqs[|reqs| - 1].id == id then Some(reqs[|reqs| - 1].addr)
    else LastAddr(reqs[..|reqs| - 1], id)
  }

  /** Register calls only append to the node list. */
  lemma {:induction false} RegisterAllExtends(reg: Registry, reqs: seq<RegisterRequest>)
    ensures |RegisterAll(reg, reqs).nodes| == |reg.nodes| + |reqs|
    ensures RegisterAll(reg, reqs).nodes[..|reg.nodes|] == reg.nodes
    ensures forall i :: 0 <= i < |reqs| ==> RegisterAll(reg, reqs).nodes[|reg.nodes| + i] == reqs[i].id
  {
    if |reqs| > 0 {
      RegisterAllExtends(reg, reqs[..|reqs| - 1]);
    }
  }

  /** A node's address is the one of its latest registration. */
  lemma {:induction false} RegisterAllAddress(reg: Registry, reqs: seq<RegisterRequest>, id: string)
    ensures Lookup(RegisterAll(reg, reqs).addrs, id)
         == match LastAddr(reqs, id) case Some(a) => a case None => Lookup(reg.addrs, id)
  {
    if |reqs| > 0 {
      RegisterAllAddress(reg, reqs[..|reqs| - 1], id);
    }
  }

  /** Once a node is registered, later registrations never change the dispatcher. */
  lemma {:induction false} DispatcherStable(reg: Registry, reqs: seq<RegisterRequest>, req: UpgradeRequest)
    requires |reg.nodes| > 0
    ensures RegisterAll(reg, reqs).Upgrade(req).Success?
    ensures RegisterAll(reg, reqs).Upgrade(req).value.nodeId == reg.Upgrade(req).value.nodeId
  {
    RegisterAllExtends(reg, reqs);
    assert RegisterAll(reg, reqs).nodes[0] == RegisterAll(reg, reqs).nodes[..|reg.nodes|][0];
  }

  /**
   * Starting from the empty registry, the dispatcher is the first node that
   * registered, at the address of its latest registration.
   */
  lemma {:induction false} FirstRegisteredDispatches(reqs: seq<RegisterRequest>, req: UpgradeRequest)
    requires |reqs| > 0
    ensures LastAddr(reqs, reqs[0].id).Some?
    ensures RegisterAll(Empty, reqs).Upgrade(req)
         == Success(UpgradeReply(reqs[0].id, LastAddr(reqs, reqs[0].id).value, TaskSubject(req.taskId)))
  {
    LastAddrFound(reqs, 0);
    RegisterAllExtends(Empty, reqs);
    RegisterAllAddress(Empty, reqs, reqs[0].id);
  }

  lemma {:induction false} LastAddrFound(reqs: seq<RegisterRequest>, i: nat)
    requires i < |reqs|
    ensures LastAddr(reqs, reqs[i].id).Some?
  {
    if i < |reqs| - 1 && reqs[|reqs| - 1].id != reqs[i].id {
      LastAddrFound(reqs[..|reqs| - 1], i);
    }
  }

  /** Every node asking about the same task gets the same answer. */
  lemma UpgradeIgnoresRequester(reg: Registry, a: string, b: string, taskId: string)
    ensures reg.Upgrade(UpgradeRequest(a, taskId)) == reg.Upgrade(UpgradeRequest(b, taskId))
  {
  }

  /** The outcome of Wait: it returned the given error (None: nil), or it is still blocked. */
  datatype WaitOutcome = Returned(err: Option<string>) | Blocked(pending: nat)

  class Portal {
    const config: PortalConfig
    var nodes: seq<string>
    var nodeAddrMap: map<string, string>

    function State(): Registry
      reads this
    {
      Registry(nodes, nodeAddrMap)
    }

    constructor (cfg: PortalConfig)
      ensures config == cfg && State() == Empty
    {
      config := cfg;
      nodes := [];
      nodeAddrMap := map[];
    }

    /** Register RPC: records the node and answers with the bus address and the tasks subject. */
    method Register(req: RegisterRequest) returns (reply: RegisterReply)
      modifies this
      ensures nodes == old(nodes) + [req.id]
      ensures nodeAddrMap == old(nodeAddrMap)[req.id := req.addr]
      ensures State() == old(State()).Registered(req)
      ensures reply == RegisterReply(config.QueueAddr(), TasksSubject)
    {
      nodes := nodes + [req.id];
      nodeAddrMap := nodeAddrMap[req.id := req.addr];
      reply := RegisterReply(config.QueueAddr(), TasksSubject);
    }

    /** Upgrade RPC: a pure read of the registry. */
    method Upgrade(req: UpgradeRequest) returns (r: Result<UpgradeReply, PortalError>)
      ensures r == State().Upgrade(req)
    {
      if |nodes| == 0 {
        return Failure(NoRegisteredNode);
      }
      r := Success(UpgradeReply(nodes[0], Lookup(nodeAddrMap, nodes[0]), TaskSubject(req.taskId)));
    }

    /**
     * Wait: expects one reply per node registered when it starts. `subscribe`
     * is the error of subscribing to the task's reply subject, `delivered` the
     * replies that arrive on it, in order. Every reply counts, whatever its
     * status; the result is nil once all expected replies have arrived.
     * `replySubject` is the subject it subscribes to: the task id itself.
     */
    method Wait(task: Task, subscribe: Option<string>, delivered: seq<TaskReply>)
      returns (r: WaitOutcome, counted: nat, replySubject: string)
      ensures replySubject == task.id
      ensures subscribe.Some? ==> r == Returned(subscribe) && counted == 0
      ensures subscribe.None? && |nodes| <= |delivered| ==> r == Returned(None) && counted == |nodes|
      ensures subscribe.None? && |delivered| < |nodes|
           ==> r == Blocked(|nodes| - |delivered|) && counted == |delivered|
    {
      var wg := new WaitGroup();
      var _ := wg.Add(|nodes|);
      counted := 0;
      replySubject := task.id;
      if subscribe.Some? {
        return Returned(subscribe), 0, replySubject;
      }
      while wg.counter > 0 && counted < |delivered|
        invariant 0 <= counted <= |delivered|
        invariant wg.counter == |nodes| - counted >= 0
      {
        // The subscription callback: log delivered[counted].status, then wg.Done().
        var _ := wg.Done();
        counted := counted + 1;
      }
      if wg.counter == 0 {
        r := Returned(None);
      } else {
        r := Blocked(wg.counter);
      }
    }
  }
}
