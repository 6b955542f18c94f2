/**
 * One node's session for one task: learn the dispatcher and the task subject
 * from the portal, resolve the task's endpoints in order, then either run the
 * job as dispatcher or subscribe to the task subject as a follower and wait
 * for the job runners it started.
 */
module Agents {
  import opened Wrappers
  import opened Proto
  import opened WaitGroups
  import Portal

  /** A live storage handle, as Endpoint.ParseStorager returns it. */
  datatype Storage = Storage(handle: nat)

  datatype AgentError =
    | UpgradeFailed(msg: string)
    | ResolveFailed(msg: string)
    | ConnectFailed(msg: string)
    | EncodeFailed(msg: string)
    | SubscribeFailed(msg: string)
    | SyncFailed(msg: string)
    | DrainFailed(msg: string)

  /**
   * The answers of the agent's collaborators. Each Option field is the error
   * (None: success) of one call the agent makes.
   */
  datatype Env = Env(
    upgrade: Result<UpgradeReply, string>,         // the Upgrade RPC to the portal
    resolve: Endpoint -> Result<Storage, string>,  // Endpoint.ParseStorager
    connect: Option<string>,                       // nats.Connect
    encode: Option<string>,                        // nats.NewEncodedConn
    sync: Option<string>,                          // Runner.Sync, on the dispatcher
    drain: Option<string>,                         // EncodedConn.Drain, on the dispatcher
    subscribe: Option<string>,                     // QueueSubscribe, on a follower
    jobs: seq<Job>,                                // job units delivered to a follower
    finished: nat)                                 // wg.Done signals of job runners while it waits

  datatype Role = Dispatcher | Follower

  /** The agent dispatches exactly when the portal names its own node. */
  function RoleOf(ownId: string, reply: UpgradeReply): Role
  {
    if reply.nodeId == ownId then Dispatcher else Follower
  }

  /**
   * All agents of one task get the same reply from the portal, so at most one
   * of them, the one whose node is named, takes the dispatcher path.
   */
  lemma OneDispatcherPerTask(reg: Portal.Registry, a: string, b: string, taskId: string)
    requires reg.Upgrade(UpgradeRequest(a, taskId)).Success?
    requires RoleOf(a, reg.Upgrade(UpgradeRequest(a, taskId)).value) == Dispatcher
    requires RoleOf(b, reg.Upgrade(UpgradeRequest(b, taskId)).value) == Dispatcher
    ensures a == b == reg.nodes[0]
  {
    Portal.UpgradeIgnoresRequester(reg, a, b, taskId);
  }

  /** A queue subscription: competing consumers share a queue group. */
  datatype Subscription = Subscription(subject: string, queueGroup: string)

  /** Handle returned the given error (None: nil), or blocks in wg.Wait with jobs pending. */
  datatype Outcome = Returned(err: Option<AgentError>) | Blocked(pending: nat)

  /** The handles of the endpoints before the first one that fails to resolve. */
  function Resolved(eps: seq<Endpoint>, resolve: Endpoint -> Result<Storage, string>): (r: seq<Storage>)
    ensures |r| <= |eps|
    ensures forall i :: 0 <= i < |r| ==> resolve(eps[i]) == Success(r[i])
    ensures |r| < |eps| ==> resolve(eps[|r|]).Failure?
  {
    if |eps| == 0 then []
    else match resolve(eps[0])
      case Failure(_) => []
      case Success(s) => [s] + Resolved(eps[1..], resolve)
  }

  /** The dispatcher path's error: the first failing step of connect, encode, Sync, Drain. */
  function ServerError(env: Env): Option<AgentError>
  {
    if env.connect.Some? then Some(ConnectFailed(env.connect.value))
    else if env.encode.Some? then Some(EncodeFailed(env.encode.value))
    else if env.sync.Some? then Some(SyncFailed(env.sync.value))
    else if env.drain.Some? then Some(DrainFailed(env.drain.value))
    else None
  }

  /** The follower path's error: the first failing step of connect, encode, subscribe. */
  function ClientError(env: Env): Option<AgentError>
  {
    if env.connect.Some? then Some(ConnectFailed(env.connect.value))
    else if env.encode.Some? then Some(EncodeFailed(env.encode.value))
    else if env.subscribe.Some? then Some(SubscribeFailed(env.subscribe.value))
    else None
  }

  class Agent {
    const nodeId: string             // the worker's node id
    const task: Task
    const wg: WaitGroup              // counts the job runners still running
    var subject: string              // the task subject every agent shares
    var storages: seq<Storage>
    var queue: Option<string>        // bus address of the agent's connection
    var subscription: Option<Subscription>
    var launched: seq<Job>           // jobs handed to a runner by HandleJob
    var finished: nat                // runners that have signalled wg.Done
    var drained: bool                // the dispatcher's connection was drained

    /** The wait group counts exactly the runners that have not finished. */
    ghost predicate Valid()
      reads this, wg
    {
      finished <= |launched| && wg.counter == |launched| - finished
    }

    /** NewAgent. */
    constructor (nodeId: string, task: Task)
      ensures Valid() && fresh(wg)
      ensures this.nodeId == nodeId && this.task == task
      ensures subject == "" && storages == [] && queue == None && subscription == None
      ensures launched == [] && finished == 0 && !drained
    {
      this.nodeId := nodeId;
      this.task := task;
      wg := new WaitGroup();
      subject := "";
      storages := [];
      queue := None;
      subscription := None;
      launched := [];
      finished := 0;
      drained := false;
    }

    /** Handle: the whole session for this task. */
    method Handle(env: Env) returns (r: Outcome)
      requires Valid()
      modifies this, wg
      ensures Valid()
      ensures env.upgrade.Failure? ==>
        && r == Returned(Some(UpgradeFailed(env.upgrade.error)))
        && unchanged(this) && unchanged(wg)
      ensures env.upgrade.Success? ==>
        && subject == env.upgrade.value.subject
        && storages == old(storages) + Resolved(task.endpoints, env.resolve)
      ensures env.upgrade.Success? && |Resolved(task.endpoints, env.resolve)| < |task.endpoints| ==>
        var k := |Resolved(task.endpoints, env.resolve)|;
        && r == Returned(Some(ResolveFailed(env.resolve(task.endpoints[k]).error)))
        && queue == old(queue) && subscription == old(subscription) && drained == old(drained)
        && launched == old(launched) && finished == old(finished) && wg.counter == old(wg.counter)
      ensures (&& env.upgrade.Success?
               && |Resolved(task.endpoints, env.resolve)| == |task.endpoints|
               && env.upgrade.value.nodeId == nodeId) ==>
        && r == Returned(ServerError(env))
        && queue == (if env.connect.None? && env.encode.None? then Some(env.upgrade.value.addr) else old(queue))
        && drained == (old(drained) || (env.connect.None? && env.encode.None? && env.sync.None?))
        && subscription == old(subscription) && launched == old(launched) && finished == old(finished)
        && wg.counter == old(wg.counter)
      ensures (&& env.upgrade.Success?
               && |Resolved(task.endpoints, env.resolve)| == |task.endpoints|
               && env.upgrade.value.nodeId != nodeId) ==>
        var subscribed := ClientError(env).None?;
        var pending := old(wg.counter) + (if subscribed then |env.jobs| else 0);
        && queue == (if env.connect.Some? then old(queue)
                     else if env.encode.Some? then None
                     else Some(env.upgrade.value.addr))
        && subscription == (if subscribed then Some(Subscription(subject, subject)) else old(subscription))
        && launched == old(launched) + (if subscribed then env.jobs else [])
        && drained == old(drained)
        && finished == old(finished) + (if pending <= env.finished then pending else env.finished)
        && wg.counter == (if pending <= env.finished then 0 else pending - env.finished)
        && r == (if pending <= env.finished then Returned(ClientError(env)) else Blocked(pending - env.finished))
    {
      if env.upgrade.Failure? {
        return Returned(Some(UpgradeFailed(env.upgrade.error)));
      }
      var reply := env.upgrade.value;
      subject := reply.subject;
      var err := ParseStorage(env.resolve);
      if err.Some? {
        return Returned(err);
      }
      if RoleOf(nodeId, reply) == Dispatcher {
        err := HandleServer(reply.addr, env);
        r := Returned(err);
      } else {
        err := HandleClient(reply.addr, env);
        if err.None? {
          Deliver(env.jobs);
        }
        var released, used := wg.Wait(env.finished);
        finished := finished + used;
        r := if released then Returned(err) else Blocked(wg.counter);
      }
    }

    /** parseStorage: resolve the endpoints in order, stopping at the first failure. */
    method ParseStorage(resolve: Endpoint -> Result<Storage, string>) returns (err: Option<AgentError>)
      modifies this`storages
      ensures storages == old(storages) + Resolved(task.endpoints, resolve)
      ensures err.None? <==> |Resolved(task.endpoints, resolve)| == |task.endpoints|
      ensures err.Some? ==>
        var k := |Resolved(task.endpoints, resolve)|;
        err == Some(ResolveFailed(resolve(task.endpoints[k]).error))
    {
      ghost var done := Resolved(task.endpoints, resolve);
      var i := 0;
      while i < |task.endpoints|
        invariant i <= |done|
        invariant storages == old(storages) + done[..i]
      {
        match resolve(task.endpoints[i])
        case Failure(e) =>
          return Some(ResolveFailed(e));
        case Success(store) =>
          storages := storages + [store];
        i := i + 1;
      }
      assert done[..i] == done;
      err := None;
    }

    /** handleServer: connect to the dispatcher's bus, run Sync, then drain. */
    method HandleServer(addr: string, env: Env) returns (err: Option<AgentError>)
      modifies this`queue, this`drained
      ensures err == ServerError(env)
      ensures queue == (if env.connect.None? && env.encode.None? then Some(addr) else old(queue))
      ensures drained == (old(drained) || (env.connect.None? && env.encode.None? && env.sync.None?))
    {
      if env.connect.Some? {
        return Some(ConnectFailed(env.connect.value));
      }
      if env.encode.Some? {
        return Some(EncodeFailed(env.encode.value));
      }
      queue := Some(addr);
      if env.sync.Some? {
        return Some(SyncFailed(env.sync.value));
      }
      drained := true;
      err := if env.drain.Some? then Some(DrainFailed(env.drain.value)) else None;
    }

    /** handleClient: connect to the bus and join the task subject's queue group. */
    method HandleClient(addr: string, env: Env) returns (err: Option<AgentError>)
      modifies this`queue, this`subscription
      ensures err == ClientError(env)
      ensures queue == (if env.connect.Some? then old(queue)
                        else if env.encode.Some? then None
                        else Some(addr))
      ensures subscription == (if err.None? then Some(Subscription(subject, subject)) else old(subscription))
    {
      if env.connect.Some? {
        return Some(ConnectFailed(env.connect.value));
      }
      if env.encode.Some? {
        queue := None;
        return Some(EncodeFailed(env.encode.value));
      }
      queue := Some(addr);
      if env.subscribe.Some? {
        return Some(SubscribeFailed(env.subscribe.value));
      }
      subscription := Some(Subscription(subject, subject));
      err := None;
    }

    /** The bus delivering job units to the subscription, one callback each. */
    method Deliver(jobs: seq<Job>)
      requires Valid()
      modifies this`launched, wg
      ensures Valid()
      ensures launched == old(launched) + jobs
      ensures wg.counter == old(wg.counter) + |jobs|
    {
      for i := 0 to |jobs|
        invariant Valid()
        invariant launched == old(launched) + jobs[..i]
        invariant wg.counter == old(wg.counter) + i
      {
        HandleJob(jobs[i]);
      }
    }

    /** handleJob: count one more running job and start its runner. */
    method HandleJob(job: Job)
      requires Valid()
      modifies this`launched, wg
      ensures Valid()
      ensures launched == old(launched) + [job]
      ensures wg.counter == old(wg.counter) + 1
    {
      var _ := wg.Add(1);
      launched := launched + [job];
    }
  }
}
