# noah task coordination, modelled in Dafny

This project models the core of noah's distributed task execution and of its
task-type code generator:

- the **portal** (`task/portal.go`). It keeps the registered worker nodes in
  registration order, together with a node-to-address map. It answers every
  agent's `Upgrade` by naming the first registered node as the dispatcher of
  the task and `task.<id>` as the task subject. Its `Wait` counts one reply per
  node registered when the wait starts.
- the **agent** (`task/agent.go`). An agent is one node's session for one task.
  It asks the portal for its role and records the task subject. It resolves
  the task's endpoints in order and stops at the first failure. The dispatcher
  then connects, runs `Sync` and drains its connection. A follower connects,
  joins the task subject's queue group and counts one running job per job unit
  delivered. It then waits on that count.
- the generator helpers (`internal/cmd/generator/tasks/tasks.go`): `lowerFirst`,
  `endwith`, `merge`, and the sorting that normalises `tasks.json` before the
  code is generated.

Modules:

- `Wrappers`: Option and Result.
- `ByteStrings`: Go strings as byte sequences, and Go's order on them.
- `StringSort`: `sort.Strings`, with the uniqueness of a sorted permutation.
- `Generator`: the template helpers and the normalisation.
- `Decimal`: `%d` formatting and the `host:port` join and split.
- `Proto`: the RPC and bus messages.
- `WaitGroups`: `sync.WaitGroup` as a counter.
- `Portal`: the registry as a value, plus the `Portal` class.
- `Agents`: the `Agent` class.

The class methods state their entire new state in terms of the old one. The
lemmas next to them relate several calls. For example, registrations after the
first never change the dispatcher, and merge gives the same list whatever the
argument order. External calls become parameters: the Upgrade RPC result, the
endpoint resolver, and the errors of connect, subscribe, `Sync` and `Drain`.
The job units and replies that the bus delivers are parameters too, and so is
the number of runner completions.

Behaviour of the code worth knowing when reading the model:

- `Register` is not idempotent: registering an id again appends it again
  (task/portal.go:109). The node list can then hold duplicates, so `Wait`
  expects one reply per registration, not per distinct node.
- `Wait` ignores reply statuses: a failed reply is only logged
  (task/portal.go:150-157), and the call returns nil once the expected number
  of replies has arrived.
- `Upgrade` on an empty registry indexes an empty slice (task/portal.go:123),
  so the Go server panics. The model returns the error `NoRegisteredNode`.
- The dispatcher does not subscribe to the task subject in `handleServer`
  (task/agent.go:81-104). Any consumption by the dispatcher happens inside
  `Runner.Sync`, which is not part of this model.

## Model

| member | source | states |
|---|---|---|
| `Generator.LowerFirst` | internal/cmd/generator/tasks/tasks.go:25-33 | Empty input gives empty output. The result has the same length and the same bytes after the first. An upper-case first byte becomes the lower-case letter 32 above it. The result equals the input exactly when the input is empty or does not start with an upper-case letter. The result never starts with an upper-case letter. |
| `Generator.LowerFirstIdempotent` | internal/cmd/generator/tasks/tasks.go:25-33 | Applying lowerFirst twice gives the same result as applying it once. |
| `Generator.EndsWith` | internal/cmd/generator/tasks/tasks.go:34-36 | The result is true exactly when y is a suffix of x, that is, when x[k..] == y for some k. |
| `Generator.Merge` | internal/cmd/generator/tasks/tasks.go:37-52 | The output is strictly increasing in Go's string order, so it has no duplicates. It holds exactly the strings that occur in x or in y. This holds for every iteration order of the map. |
| `Generator.MergeDeterministic` | internal/cmd/generator/tasks/tasks.go:38-51 | Two merge results for the same inputs are equal, so map iteration order cannot be observed. |
| `Generator.MergeCommutes` | internal/cmd/generator/tasks/tasks.go:38-51 | merge(x, y) == merge(y, x). |
| `Generator.MergeAbsorbs` | internal/cmd/generator/tasks/tasks.go:38-51 | Merging a merge result again with x or with y returns it unchanged. |
| `Generator.SortedCopy` | internal/cmd/generator/tasks/tasks.go:77-78 | The sorted Input or Output list is sorted and is a permutation of the original list. |
| `Generator.Normalise` | internal/cmd/generator/tasks/tasks.go:74-82 | The task set is unchanged. Each task keeps its description, and its Input and Output become sorted permutations of the originals. The task-name list is strictly sorted and holds exactly the map's keys. |
| `Generator.NormaliseIdempotent` | internal/cmd/generator/tasks/tasks.go:77-78 | Normalising an already normalised task changes nothing. |
| `Generator.TaskNamesDeterministic` | internal/cmd/generator/tasks/tasks.go:75-82 | There is only one possible sorted name list for a given task map. |
| `StringSort.SortStrings` | internal/cmd/generator/tasks/tasks.go:50 | The array is sorted in place into non-decreasing order and is a permutation of its old contents. |
| `StringSort.SortedUnique` | internal/cmd/generator/tasks/tasks.go:50 | Two sorted permutations of the same list are equal, so the result does not depend on the sorting algorithm. |
| `StringSort.StrictlySortedUnique` | internal/cmd/generator/tasks/tasks.go:38-51 | Two strictly increasing lists with the same elements are equal. |
| `StringSort.SortedDistinctIsStrict` | internal/cmd/generator/tasks/tasks.go:45-50 | A sorted list of distinct map keys is strictly increasing. |
| `ByteStrings.LessTotal` | internal/cmd/generator/tasks/tasks.go:50 | Any two different strings are ordered one way or the other by Go's bytewise `<`. |
| `ByteStrings.LessTransitive` | internal/cmd/generator/tasks/tasks.go:50 | Go's `<` on strings is transitive. |
| `ByteStrings.LessIrreflexive` | internal/cmd/generator/tasks/tasks.go:50 | No string is `<` itself. |
| `ByteStrings.LessAsymmetric` | internal/cmd/generator/tasks/tasks.go:50 | a < b excludes b < a. |
| `Decimal.FormatInt` | task/portal.go:38 | The `%d` rendering is canonical: a minus sign exactly for negative numbers, then decimal digits with no leading zero except for "0" itself. It reads back as the same integer and contains no colon. |
| `Decimal.DigitsValueOfFormat` | task/portal.go:42 | The decimal digits of a natural number have that number as their value. |
| `Decimal.HostPort` | task/portal.go:37-43 | The address is the host, a colon, then the canonical decimal port, with no brackets. Splitting it at its last colon gives back exactly the host and the port, even when the host contains colons. |
| `Portal.PortalConfig.GrpcAddr` | task/portal.go:37-39 | The gRPC address is Host, a colon, then the canonical decimal GrpcPort, and it splits back into (Host, GrpcPort). |
| `Portal.PortalConfig.QueueAddr` | task/portal.go:41-43 | The queue address is Host, a colon, then the canonical decimal QueuePort, and it splits back into (Host, QueuePort). |
| `Portal.TaskSubject` | task/portal.go:125 | The subject is "task." followed by the task id, so the id can be read back. The subject always differs from "tasks". |
| `Portal.Registry.Registered` | task/portal.go:109-110 | The node list grows by exactly one, and the new last element is the id. This also happens for an id that is already present. The address map gains or overwrites the id's entry and leaves every other entry unchanged. The registry invariant (exactly the registered nodes have addresses) is preserved. |
| `Portal.Registry.Upgrade` | task/portal.go:118-127 | It fails exactly when no node is registered. Otherwise it names nodes[0] at that node's mapped address, with the subject "task." + TaskId, whoever asks. |
| `Portal.RegisterAllExtends` | task/portal.go:109 | A series of registrations only appends their ids, in call order, to the node list. |
| `Portal.RegisterAllAddress` | task/portal.go:110 | After a series of registrations, a node's address is the one from its latest registration. A node that did not register keeps its old address. |
| `Portal.DispatcherStable` | task/portal.go:109-124 | Once a node is registered, later registrations never change the dispatcher that Upgrade names. |
| `Portal.FirstRegisteredDispatches` | task/portal.go:109-124 | Starting from the empty portal, Upgrade names the first node that registered, at the address of that node's latest registration. |
| `Portal.UpgradeIgnoresRequester` | task/portal.go:118-127 | Two nodes asking about the same task get identical replies. |
| `Portal.Portal.constructor` | task/portal.go:48-51 | A new portal has its config, no nodes and an empty address map. |
| `Portal.Portal.Register` | task/portal.go:103-116 | The id is appended to nodes and the map entry set to addr, and nothing else changes. The reply is always the queue address with subject "tasks". |
| `Portal.Portal.Upgrade` | task/portal.go:118-127 | This is a read of the registry that returns the registry's Upgrade answer. nodes and nodeAddrMap are not changed. |
| `Portal.Portal.Wait` | task/portal.go:142-166 | It subscribes to the subject equal to the task id. The counter starts at len(nodes) and every delivered reply decrements it, whatever its status. A subscribe error is returned as is. The result is nil after exactly len(nodes) replies. With fewer replies the call stays blocked, with the shortfall pending. |
| `WaitGroups.WaitGroup.Add` | task/portal.go:146 | The counter changes by delta, and the call panics exactly when the counter becomes negative. |
| `WaitGroups.WaitGroup.Done` | task/portal.go:148 | The counter drops by one, and the call panics exactly when it becomes negative. |
| `WaitGroups.WaitGroup.Wait` | task/agent.go:61 | The wait is released exactly when the Done signals reach the counter. It uses up exactly as many signals as it needs, or all of them while still blocked. |
| `Agents.OneDispatcherPerTask` | task/agent.go:57-62 | Among the agents of one task, only the node that Upgrade names can take the dispatcher path. |
| `Agents.Resolved` | task/agent.go:71-77 | The handles are those of the longest prefix of endpoints that resolve, in endpoint order. When it is shorter than the endpoint list, the next endpoint is the one that failed. |
| `Agents.Agent.constructor` | task/agent.go:28-36 | A new agent has its node id and task, a fresh zero wait group, and no subject, storages, connection, subscription or jobs. |
| `Agents.Agent.ParseStorage` | task/agent.go:70-79 | One handle is appended per endpoint, in order, up to the first failure. The result is nil exactly when every endpoint resolves. Otherwise it is the resolver's error for the first failing endpoint, unchanged. |
| `Agents.Agent.Handle` | task/agent.go:38-68 | If Upgrade fails, the error is returned and nothing changes. Otherwise the subject is the reply's subject before storages are parsed. A resolution failure returns without connecting. The dispatcher path is taken exactly when the reply names this node, and it returns the server error. A follower joins the queue group named after the subject and launches one runner per delivered job. It then waits. It returns only when runner completions bring the counter to zero, and otherwise stays blocked. Either way the new `finished` count and counter are stated: the completions used are added to `finished` and subtracted from the counter. |
| `Agents.Agent.HandleServer` | task/agent.go:81-104 | It connects to the dispatcher's address. A Sync error is returned before Drain is called, and Drain runs only after a successful Sync. |
| `Agents.Agent.HandleClient` | task/agent.go:106-127 | It connects, then subscribes to the subject with queue group equal to the subject. An error in a step is returned and leaves no subscription. |
| `Agents.Agent.Deliver` | task/agent.go:122 | Every job delivered to the subscription is passed to handleJob in order, and the counter grows by their number. |
| `Agents.Agent.HandleJob` | task/agent.go:129-131 | The pending-job counter grows by exactly one, and the job is appended to the launched runners. |

## Left out

- Transport is not modelled. This covers NATS server bring-up, its readiness timeout and panic, connection creation, `Publish`, the `Drain` of the portal, and the gRPC server and client. Each call an agent makes appears only as its success or error.
- Goroutines and real concurrency are not modelled. Replies, job units and runner completions are delivered sequentially, as parameters.
- Agents.Agent.Handle: a follower's jobs are all delivered before its `wg.Wait` starts. In Go, jobs can arrive after the counter has reached zero and `Wait` has returned. That race is not captured.
- Portal.Portal.Wait: replies that arrive after the counter reaches zero are ignored. In Go, such a reply arriving before `Unsubscribe` would drive the counter negative and panic.
- `Runner`, `NewRunner`, `Sync`, `Runner.Handle` and `Endpoint.ParseStorager` are not part of this model. They are opaque operations that may fail. The model assumes that each launched runner's completion is one `wg.Done`.
- Logging, protobuf encoding, and `Task` and `Job` contents beyond the ids and endpoints the core reads are left out.
- The generator's template text, rendering, file I/O, JSON (un)marshalling and the loop that renders each task are left out.
- Generator.Normalise: a `null` entry in tasks.json leaves a nil task pointer, and Go then panics when it sorts that task's Input (internal/cmd/generator/tasks/tasks.go:77). A `TaskDef` value cannot be nil, so that case is not modelled.
- Agents.Agent.Handle: errors are tags carrying the message of the failing call. Go wraps some of them (for example "node upgrade: ...") and returns the rest unchanged; the wrapping text is not modelled.
- Generator.Normalise: Go sorts each task's slices in place through the map's pointers. The model replaces each map value with a sorted copy, so aliasing between tasks is not captured, and none exists after JSON decoding.
- `task/agent_test.go` is not modelled. It is an integration scaffold that asserts only the absence of errors.
