# 996Server, verified

996Server is an actor framework: Lua services with mailboxes, run by a pool of worker threads, that call each other
inside a node and between nodes. This project models its protocol logic in Dafny and proves what that logic is for.

| file | component |
|---|---|
| Basics.dfy | shared types |
| Frames.dfy | the binary frames between nodes, read and written as by string.pack and string.unpack |
| ClusterService.dfy | the cluster service of one node: handlers as functions, and class ClusterServ |
| ClusterSystem.dfy | any number of nodes with their services, mailboxes and connections as an interleaved step system |
| ClusterRun.dfy | runs of that system: which answer reaches which waiting call |
| ClusterMisuse.dfy | why the condition of the main theorem about them is needed |
| ClusterPaths.dfy | every path of one request: over a connection to be made, without an answer, into each failure |
| ClusterDelivers.dfy | any call can be answered: the run in which it is |
| Scheduler.dfy | workers, services and the free queue as an interleaved step system |
| SchedulerRounds.dfy | what becomes of each service a worker takes, and each thread on its own |
| ServiceMgr.dfy | the same code as mutable objects |
| Sessions.dfy, Api.dfy | coroutines, sessions and onPoll of one service: specification and class |
| Hotfix.dfy | the module loader: a depth-first search with placeholders |
| Mailbox.dfy | recycled mutable messages against queues of values |
| Locks.dfy, LockNesting.dfy | all locks of a node: order, nesting, deadlock freedom, and the one that is never released |
| Protobuf.dfy, Json.dfy | the tree conversions |
| HttpText.dfy | HTTP request parser and response formatter |
| Websocket.dfy, TcpServer.dfy | session tables of the two kinds of servers |

The original code changes state step by step, so most components appear twice: as functions from one state to the next,
about which the theorems are proved, and as a class or a method with the original's loops and assignments whose contract
equates the new state with those functions. Where threads interleave, a step is one critical section or one access to an
unlocked field, and a theorem speaks of every sequence of steps.

## Findings

Where the code does not do what it is for, the property is proved with its exact condition.

- `ServiceMsgPool::pop` never releases its lock (src/service/msg/serviceMsgPool.cpp:43-62). As written, exactly the
  procedures that do not pop keep the lock order (`Locks.PopsExactly`), the node is deadlock free until the first pop
  (`Locks.DeadlockFreeUntilPop`), and from then on one thread is stuck and everybody who needs a message waits for ever
  (`Locks.StuckExactly`, `Locks.PopBlocks`). Everywhere else the model releases the lock at the end of `pop`.
- A service may send its cluster service a request to relay that names another service as the one to answer, and nobody
  compares the two (services/clusterServ.lua:100-106). Answers reach the right session in every run in which the name
  is the sender's (`ClusterRun.EndToEndCorrelation`); any other name misleads some run (`ClusterMisuse.Misdelivered`).
- The reply to an HTTP POST loses its body (src/http/client/luaHttpClient.cpp:143-159), and a message without a peer
  number carries the fd of an earlier one (src/service/msg/serviceMsg.cpp:5-15). `Mailbox.IntendedArrives`,
  `Mailbox.ServiceMsg.Write` and `Mailbox.Mail.Post` say exactly when the recipient reads what was intended.
- A response nobody waits for makes onPoll drop the rest of its batch, a shutdown request included
  (lualib/api.lua:349-353); `Sessions.BatchCompletes` and `Sessions.CloseExactly` say exactly when not.
- A second HTTP reply for one session resumes a coroutine that may wait for something else (lualib/net/http.lua:26-32);
  `Sessions.SecondHttpReply` says exactly when that does no harm.
- A query whose first pair is written like the path is ignored (lualib/net/http.lua:96-110), and CRLF in a body gains a
  CR (lualib/net/http.lua:72-83); `HttpText.ParseInvertsPrint` has both conditions.
- Message to table does not end when a type contains itself through singular fields (src/protobuf/protobuf.cpp:363-369,
  `Protobuf.EndsExactly`), and a message rebuilt from its table has everything set that was unset
  (src/protobuf/protobuf.cpp:329-369, `Protobuf.RebuiltExactly`).
- A nested empty table disappears in JSON, and array elements after it move up (src/json/json.cpp:69-155,
  `Json.RoundTripExactly`).
- A TCP server reports the close of descriptors it does not know or has closed already
  (src/socket/tcp/server/tcpServer.cpp:55-76); `TcpServer.ReportsInOrder` says exactly when the reports are in order.

## Model

| member | source | states |
|---|---|---|
| Frames.RequestRoundTrip | services/clusterServ.lua:30-31 | Decoding an encoded request followed by any bytes gives back name, ids, session and payload and stops where the frame ends, for every NUL-free name and every field below 2^32; anything else cannot be packed |
| Frames.ResponseRoundTrip | services/clusterServ.lua:62-63 | The same for responses, whose payload may be any bytes |
| Frames.RequestsSelfDelimiting | services/clusterServ.lua:101-104 | Two request frames, each followed by anything, that make the same byte stream are the same frame: a stream splits in only one way |
| Frames.ResponsesSelfDelimiting | services/clusterServ.lua:15-24 | The same for responses |
| Frames.TruncatedRequestRefused | services/clusterServ.lua:29-31 | No proper prefix of a request frame decodes to anything, which is why one frame per receive is assumed |
| Frames.RequestExactly | services/clusterServ.lua:30-31 | Whatever bytes arrive, they decode to a request exactly when they begin with its frame, and the rest is what follows it |
| Frames.ResponseExactly | services/clusterServ.lua:62-70 | The same for responses, where any flag but 0 means yes |
| Frames.LittleEndian | services/clusterServ.lua:23 | The four bytes of a number are its base-256 digits, the lowest first |
| ClusterService.RelayRoundTrip | services/clusterServ.lua:101-112 | Without faults a call goes out over the open connection, is served in a session of the far service's own, and comes back as exactly the far service's answer for the caller and session it left with, or not at all if the answer cannot be decoded, whatever state the two nodes are in |
| ClusterService.RelayedRequest | services/clusterServ.lua:106-111 | The relaying coroutine sends exactly the packed request on the node's client and leaves the state as it was |
| ClusterService.ReceivedRequest | services/clusterServ.lua:29-46 | A received frame of a registered name becomes a serving coroutine with the decoded source, session and data |
| ClusterService.ServedRequest | services/clusterServ.lua:46-54 | A served request is called in a fresh session, and the answer to that session goes back to the descriptor, service and session the request came from, or nowhere if it cannot be decoded |
| ClusterService.ForwardedAnswer | services/clusterServ.lua:61-70 | A response frame becomes a message to the service and session it names, with the flag and data it carries |
| ClusterService.ClusterServ.DispatchSend | services/clusterServ.lua:100-106 | The send branch packs at once and queues one coroutine |
| ClusterService.ClusterServ.SendResponse | services/clusterServ.lua:15-27 | One packed response on the descriptor, or nothing when packing raises an error |
| ClusterService.ClusterServ.RunCoroutine | services/clusterServ.lua:106-122 | Open client, failed send and missing client take the three branches of the script, with the same table updates and foreign calls in the same order |
| ClusterService.ClusterServ.OnHttpReply | services/clusterServ.lua:117-144 | A failed lookup ends the coroutine; otherwise a new client is made and a failed connect is reported to the caller |
| ClusterService.ClusterServ.OnClientConnect | services/clusterServ.lua:125-129 | The client becomes the node's client and the captured request is sent on it |
| ClusterService.ClusterServ.OnClientConnectError | services/clusterServ.lua:130-133 | The captured caller gets a failure for its session |
| ClusterService.ClusterServ.OnClientClose | services/clusterServ.lua:134-137 | The node's client is forgotten, even when a newer one has replaced the closed one |
| ClusterService.ClusterServ.OnClientResponse | services/clusterServ.lua:61-70 | A response frame is unpacked and posted to the service it names |
| ClusterService.ClusterServ.OnMsg | services/clusterServ.lua:29-55 | Unknown names are refused and then fall through; session 0 is sent, others are called from a coroutine |
| ClusterService.ClusterServ.OnCallResult | services/clusterServ.lua:47-52 | The answer of a served call is packed for the descriptor, service and session remembered for it |
| ClusterService.RelayCall | services/clusterServ.lua:100-112 | Two calls of the object, send branch and coroutine, leave it as it was and put one packed frame on the open client |
| ClusterService.ServeCall | services/clusterServ.lua:29-55 | Three calls of the object, receive, coroutine and answer, post one call in a fresh session and one response on the descriptor the frame came from; only the session counter changes |
| ClusterService.ExchangeCall | services/clusterServ.lua:15-112 | Two such objects, whatever they have pending, exchange one call without faults: the caller's service is posted exactly the packed answer for the session it called in, or nothing if the answer cannot be decoded, and nothing else changes but the far session counter |
| ClusterPaths.ColdRequest | services/clusterServ.lua:106-129 | Without an open client, or when it cannot send, a request is packed, its node looked up and dialled, and as soon as the connection is there exactly that request is sent on the new client, which becomes the node's |
| ClusterPaths.ColdRoundTrip | services/clusterServ.lua:106-129 | A call that had to make its connection is served in a session of the far service's own and comes back as exactly the answer for the caller and session it left with |
| ClusterPaths.SendArrives | services/clusterServ.lua:43-44 | A request of session 0 becomes one call of the service at once, and the far service remembers nothing of it |
| ClusterPaths.ConnectReported | services/clusterServ.lua:130-144 | A connection that cannot be started or is refused later is reported as a failure to the caller's session |
| ClusterPaths.TimeoutReported | services/clusterServ.lua:46-53 | A served request without an answer in time is reported as a failure to the caller's session |
| ClusterPaths.UnknownReported | services/clusterServ.lua:34-41 | For a name nobody has the reason goes back, and reaches the caller exactly if it can be decoded there |
| ClusterPaths.CloseForgets | services/clusterServ.lua:134-137 | After a close the node's client is forgotten and all others are kept, so the next request makes a new connection |
| ClusterPaths.ConnectCall | services/clusterServ.lua:100-129 | Four calls of the object take a request from the send branch to the new connection: a lookup, a dial and the one frame, with exactly these table entries |
| ClusterPaths.FirstCall | services/clusterServ.lua:15-129 | Two objects exchange their first call: the caller's service is posted exactly the answer for the session it called in |
| ClusterPaths.SendAcross | lualib/cluster.lua:7-14 | A send between two objects, over an open connection or one to be made, ends as exactly one request posted to the service |
| ClusterRun.EndToEndCorrelation | lualib/cluster.lua:19-26 | In every run of any number of nodes in which requests to relay name their sender, a coroutine resumed in a session was resumed by an event that is its timeout or delivers an answer to that very session: given by a handler to the session itself or, over any number of nodes, to a session that serves it, or the report that this very call failed. Calls, answers, sessions served and failures all go back to earlier events about those very sessions, and no session is resumed twice |
| ClusterRun.RemoteAnswers | services/clusterServ.lua:61-70 | For one remote call in plain events: its answer either reports that this very call failed in an earlier event (its serving session ran out of time, its request named nobody, or its connection could not be made), or was given earlier in the run by the service of that name on that node, to a request with exactly the data of the call, in a session taken on for exactly the session that issued the call, whatever else anybody calls |
| ClusterRun.StepKeeps | services/clusterServ.lua:15-70 | Each of the 17 kinds of events, faults included, keeps the invariant that every frame, queued message, pending coroutine and table entry belongs to the session of a call that was really issued, and every answer on its way to one given to that session |
| ClusterRun.RunKeeps | services/clusterServ.lua:72-147 | The invariant holds in every reachable state |
| ClusterRun.CallsIssued | lualib/api.lua:261-275 | A call of a service is on record only because an event of the run issued it, in the session the service had next |
| ClusterRun.AnswersGiven | lualib/api.lua:253-257 | An answer is on record only because a handler gave it in an earlier event, to a request it had received and that the session it names had issued |
| ClusterRun.SessionsServed | services/clusterServ.lua:46-54 | A session of a cluster service serves a caller's session only because an earlier event took on a request that came from that very session |
| ClusterRun.FailuresHappened | services/clusterServ.lua:117-144 | A failure is on record only because exactly that call failed in an earlier event: a timeout of the session serving it, a request of its session read for an unknown name, or a failed connection with its request captured |
| ClusterRun.ResultsHappened | lualib/api.lua:305-359 | Every resumption is an earlier event: the timeout of that session, or the arrival of that answer for it |
| ClusterRun.WaiterResumed | lualib/api.lua:305-359 | An enabled timeout of a waiting session, or the arrival of an answer to it, resumes that session with exactly that outcome and takes it out of the waiting ones |
| ClusterRun.RunGrows | services/clusterServ.lua:72-147 | What is on record stays: no later step changes a call, who is behind a descriptor, whom a session serves or an answer given |
| ClusterRun.BackAnswer | services/clusterServ.lua:46-53 | The answer to a served session, packed, is a payload for exactly the caller's session it serves: here one session is tied to another |
| ClusterRun.PayloadAnswers | services/clusterServ.lua:61-70 | A payload on its way to a session, unpacked and posted, is an answer to that session or the report of its failure |
| ClusterRun.DispatchGood | services/clusterServ.lua:101-106 | The frame packed for a node asks that node what the caller asked |
| ClusterRun.ServeGood | services/clusterServ.lua:46-47 | A served request becomes a call in a session no other call has, recorded as serving exactly the session behind the descriptor the request came from |
| ClusterRun.ResponseGood | lualib/api.lua:349-359 | A response taken by the cluster service becomes a frame for exactly the caller's session that the answered session serves |
| ClusterRun.AcceptKeeps | services/clusterServ.lua:124-129 | A connection gets a descriptor nobody had on that node, so answers sent on it reach this client only |
| ClusterRun.IssueKeeps | lualib/api.lua:261-275 | A call gets a session no call of that service ever had |
| ClusterRun.ResumeKeeps | lualib/api.lua:349-359 | A resumed session leaves the table and cannot be resumed again |
| ClusterRun.DutyGood | lualib/api.lua:253-257 | A handler that answers the source and session it was given answers that very session |
| ClusterMisuse.Misdelivered | services/clusterServ.lua:100-106 | Without the condition the theorem fails for every text that a cluster service reads as a request naming some victim: another service may send it, and then a run resumes the victim with an answer nobody gave to its call |
| ClusterDelivers.CallAnswered | lualib/cluster.lua:16-26 | For all nodes, services, names, data and answers that can be packed and decoded there is an honest run of twelve events, from nodes that never talked, in which the caller alone is resumed, in the session of its call, with exactly what the handler answered |
| Scheduler.TokenConservation | src/worker/worker.cpp:35-69 | Each step changes the number of tokens of an id, in the free queue or with a worker, only by the hand-over of a new shared service or by dropping the id of a missing one |
| Scheduler.StepKeeps | src/service/serviceMgr.cpp:28-69 | Every step of newService, destoryService, poll and the worker loop, in any interleaving, keeps the whole scheduler invariant |
| Scheduler.RunKeeps | src/service/serviceMgr.cpp:113-146 | The invariant holds in every reachable state |
| Scheduler.SinglePoller | src/worker/worker.cpp:42-65 | No service is ever polled by two workers at once, pinned or taken from the queue |
| Scheduler.TokensPerService | src/service/serviceMgr.cpp:215-246 | Every id has at most one token; a live, handed-over shared service exactly one; a unique one none, and no two workers are pinned to the same service |
| Scheduler.HandOverKeeps | src/service/serviceMgr.cpp:59-66 | Pinning a unique service to its worker, or queueing a shared one, keeps the invariant |
| Scheduler.QueueIsFifo | src/service/serviceMgr.cpp:215-246 | Over any stretch of any run, ids taken followed by the queue at the end equal the queue at the start followed by ids pushed |
| Scheduler.BoundedBypass | src/worker/worker.cpp:42-65 | Once an id stands at place p of the free queue, the next takes are exactly the p ids ahead of it, each once and in order, and then itself; p is below the number of workers |
| Scheduler.IdsBounded | src/worker/workerMgr.cpp:45-63 | Ids handed out, creations that have only a worker and free workers always add up to the initial number of workers |
| Scheduler.ServicesAccounted | src/service/serviceMgr.cpp:177-192 | Created services are the disjoint union of building, live, dying, stacked and deleted ones, and map, stack and deleted set agree with it |
| Scheduler.LifeIsOneWay | src/service/serviceMgr.cpp:113-146 | A service only moves forward in its life, so any repetition of destroy requests stacks and deletes it at most once |
| SchedulerRounds.TakesArePolled | src/worker/worker.cpp:42-65 | In every run and for every worker: each id taken from the queue is in its turn polled once, or dropped because it is in the map no more; each id polled is in its turn pushed back once, and nothing else is; each pinned service found is polled once; the worker is at most one behind |
| SchedulerRounds.UniquePinned | src/service/serviceMgr.cpp:59-62 | In every run a unique service that was handed over and is in the map is pinned to the worker it took, and to no other, until it has been unpinned for its destruction |
| SchedulerRounds.RoundAlone | src/worker/worker.cpp:35-69 | The steps of an undisturbed round of a worker poll what ServiceMgr.RunOnce polls, leave the same queue and change nothing else |
| SchedulerRounds.CreateAlone | src/service/serviceMgr.cpp:28-69 | The steps of an undisturbed newService use up the least free worker and an id, enter the map, and pin the worker or queue the id, and change nothing else |
| SchedulerRounds.DestroyAlone | src/service/serviceMgr.cpp:113-146 | The steps of an undisturbed destoryService unpin the service from the first worker that has it, take it off the map and stack it, and change nothing else |
| SchedulerRounds.ReapDeletes | src/service/serviceMgr.cpp:177-192 | poll deletes exactly the stacked services and leaves the stack empty |
| ServiceMgr.WorkerMgr.InitWorker | src/worker/workerMgr.cpp:25-33 | Workers 1 to num exist, unpinned, and exactly these are free |
| ServiceMgr.WorkerMgr.GetWorker | src/worker/workerMgr.cpp:35-43 | The worker of a number in range, null otherwise |
| ServiceMgr.WorkerMgr.UseWorker | src/worker/workerMgr.cpp:45-63 | The least free worker leaves the set; 0 when there is none |
| ServiceMgr.WorkerMgr.GetServiceWorker | src/worker/workerMgr.cpp:82-102 | The first worker pinned to the service, 0 when there is none |
| ServiceMgr.ServiceMgr.NewService | src/service/serviceMgr.cpp:28-69 | While no worker is free it asks in vain and nothing changes; otherwise one fresh id, the least free worker used up, one map entry, and either that worker pinned or the id at the end of the queue; everything else unchanged |
| ServiceMgr.ServiceMgr.DestoryService | src/service/serviceMgr.cpp:113-146 | A known service is unpinned from its first worker, erased and stacked; an unknown one changes nothing |
| ServiceMgr.ServiceMgr.Poll | src/service/serviceMgr.cpp:177-192 | Deletes everything on the stack, each once, the top first |
| ServiceMgr.ReverseLast | src/service/serviceMgr.cpp:184-189 | Emptying a stack from its top gives its reversal |
| ServiceMgr.ServiceMgr.GetFreeServiceId | src/service/serviceMgr.cpp:215-234 | The front of the queue is taken, 0 from an empty one |
| ServiceMgr.ServiceMgr.PushFreeServiceId | src/service/serviceMgr.cpp:236-246 | The id goes to the end of the queue |
| ServiceMgr.ServiceMgr.RunOnce | src/worker/worker.cpp:37-68 | A pinned worker polls its service and leaves the queue alone; another takes the front, drops it when the service is gone, else polls it and pushes it back |
| ServiceMgr.ServiceMgr.Run | src/worker/worker.cpp:35-69 | Any number of rounds of an unpinned worker alone, over any queue of existing and missing services, computes the specified polls and queue |
| ServiceMgr.FirstRound | src/worker/worker.cpp:42-65 | In the first round over a queue each service still there is polled once, in order, and the missing ones drop out |
| ServiceMgr.RoundRobin | src/worker/worker.cpp:42-65 | From then on the services are polled in that order, and whenever it is through, again in the same order, for any number of rounds |
| Sessions.SessionDiscipline | lualib/api.lua:261-284 | In any run, with late, duplicated and missing responses: sessions are issued in ascending order; a coroutine suspended in api.call is resumed only by its session's response or timeout; at most one resumption ends the wait of a session |
| Sessions.NobodyForgotten | lualib/api.lua:261-268 | Whoever waits in api.call stands in callCoro under its session until it is resumed |
| Sessions.ResumeWrites | lualib/api.lua:232-275 | A resumed coroutine does exactly what its script says, in that order: coroutines created, sessions taken, and at the end its call with its deadline |
| Sessions.TimeoutsOverdue | lualib/api.lua:305-314 | In every poll of every run, whoever is resumed by a timeout had called in that session with a deadline of its script, and the clock of this poll is past it |
| Sessions.OverdueTimesOut | lualib/api.lua:305-314 | Conversely a coroutine that waits in a session, whose script called with a deadline, is resumed by its timeout in any poll that comes to the session with a clock past that deadline |
| Sessions.MessagesHandled | lualib/api.lua:317-371 | A poll that gets through its batch hands exactly the requests, socket events and timers that are set to a handler, each once and in order |
| Sessions.SecondHttpReply | lualib/net/http.lua:26-32 | A second HTTP reply for one session keeps the discipline exactly when the coroutine of that session has finished meanwhile, since httpCoro entries are never removed |
| Sessions.OnPollKeeps | lualib/api.lua:295-379 | One call of onPoll with any clock, any traversal of callCoro and any batch keeps the session invariant |
| Sessions.RunKeeps | lualib/api.lua:295-379 | The session invariant holds after any number of polls |
| Sessions.PendingRunOnce | lualib/api.lua:296-303 | The backward loop resumes each entry present at its start exactly once, the last first, and leaves exactly the entries added meanwhile in order of creation, even if every coroutine creates more |
| Sessions.BatchCompletes | lualib/api.lua:317-371 | A batch is handled to its end exactly when each of its responses is the only one to a call that waits in callCoro, provided none is to a session not issued yet |
| Sessions.CloseExactly | lualib/api.lua:295-379 | onPoll queues the shutdown exactly when the batch holds a Close and each of its responses is the only one to a call that waits before the poll and does not time out in it; otherwise the Close is forgotten |
| Sessions.CloseHonoured | lualib/api.lua:312-313 | A Close in a batch without responses queues the shutdown coroutine last |
| Sessions.CloseLost | lualib/api.lua:349-353 | In a batch with a response that meets no waiting call the Close is lost: the whole poll does exactly what it would do without it |
| Api.QueueGrows | lualib/api.lua:296-303 | A resumed coroutine only appends to nextCoro, so the backward loop's index stays valid |
| Api.Api.Async | lualib/api.lua:232-235 | api.async appends a new coroutine |
| Api.Api.NewSession | lualib/api.lua:262-263 | The next session number is taken and incremented |
| Api.Api.Call | lualib/api.lua:261-275 | api.call enters callCoro under a fresh session with its deadline |
| Api.Api.Get | lualib/net/http.lua:21-32 | http.get enters httpCoro under a fresh session |
| Api.Api.RunNext | lualib/api.lua:296-303 | The loop over the mutable list computes the specified state |
| Api.Api.RunTimeouts | lualib/api.lua:305-314 | The loop over callCoro, in whatever order its keys are met, computes the specified state |
| Api.Api.RunMessages | lualib/api.lua:317-371 | The loop over the batch computes the specified state, and tells whether it came to its end and saw a Close |
| Api.Api.OnPoll | lualib/api.lua:295-379 | The whole of onPoll computes the specified state |
| Hotfix.LoadsReachable | lualib/hotfix.lua:18-97 | For every finite graph of requires, cyclic or not and with failing bodies, require terminates and adds exactly the paths with files reachable from the root through paths not loaded before |
| Hotfix.LoadRunsOnce | lualib/hotfix.lua:39-89 | Each body runs at most once, no placeholder of this load is left unsettled, modules registered are exactly those whose bodies returned a table, and what was loaded before is untouched |
| Hotfix.DependenciesFirst | lualib/hotfix.lua:29-41 | When a body has ended, each file it requires was loaded before, ended earlier, or is in a cycle with it |
| Hotfix.RequiresInOrder | lualib/hotfix.lua:29-41 | Of two files that a body is the first to need, the one it requires first starts first, unless a require it made before both led to the other |
| Hotfix.LoadCloses | lualib/hotfix.lua:23-41 | What a load adds is closed under requires of paths with files |
| Hotfix.AddedReachable | lualib/hotfix.lua:23-41 | What a load adds is reachable from its root |
| Hotfix.MissingShrinks | lualib/hotfix.lua:39-41 | Placing the placeholder before running the file makes the number of files not loaded go down: the termination measure |
| Hotfix.Loader.Require | lualib/hotfix.lua:18-97 | The recursive procedure on package.loaded and mods computes the specified state, and returns nil exactly for a missing file or for the call that runs a failing body |
| Mailbox.MailboxIsQueue | src/service/service.cpp:113-170 | Whatever its objects were used for before, all that a service was handed, followed by what its mailbox says, is all that it accepted: in order, nothing lost, twice or changed |
| Mailbox.Exclusive | src/service/msg/serviceMsgPool.cpp:30-62 | Every message object is at one position of the pool, at one position of one mailbox, or with a sender, never in two places |
| Mailbox.IntendedArrives | src/http/client/luaHttpClient.cpp:143-164 | A recipient reads what the sender intended exactly when the numbers fit 32 bits, the error has no NUL, it is not the reply to a POST with a body, and a peer number is given or the object's old fd happens to be clean |
| Mailbox.ErrorArrives | src/service/service.cpp:152-153 | An error text is delivered whole exactly when it has no NUL byte |
| Mailbox.StalePeer | src/service/msg/serviceMsg.cpp:5-15 | The fd a recipient sees is left over from an earlier message exactly when the sender has no peer number |
| Mailbox.ServiceMsg.Reset | src/service/msg/serviceMsg.cpp:5-15 | A reset message reads like a new one except for fd, with its buffer zeroed at its size |
| Mailbox.ServiceMsg.Write | src/service/luaService.cpp:60-74 | Each producer's assignments, with its own rule for enlarging the buffer, give the intended message on any recycled object exactly under that condition |
| Mailbox.Mail.constructor | src/service/msg/serviceMsgPool.cpp:22-28 | The pool starts with num new messages |
| Mailbox.Mail.Pop | src/service/msg/serviceMsgPool.cpp:43-62 | The front of the pool or a new object goes to the sender and reads like a new message except for the fd left in it; no mailbox changes |
| Mailbox.Mail.Push | src/service/msg/serviceMsgPool.cpp:30-41 | The message is reset and goes to the end of the pool; no mailbox changes |
| Mailbox.Mail.Fill | src/service/luaService.cpp:60-74 | Filling the message in hand changes no mailbox and no pooled message |
| Mailbox.Mail.Send | src/service/serviceMgr.cpp:204-213 | The message joins the mailbox of an initialised service and its record the queue of values; otherwise it is dropped |
| Mailbox.Mail.Take | src/service/service.cpp:133-136 | The front message leaves the mailbox and says the front of the queue of values |
| Mailbox.Mail.Drain | src/service/service.cpp:133-168 | One round hands over the front record and recycles its object, and changes no other mailbox |
| Mailbox.Mail.Poll | src/service/service.cpp:113-170 | A poll hands over the whole queue in order, adds it to what the service was handed and leaves the queue empty; a stopped service or one without onPoll gets nothing and loses nothing |
| Mailbox.Mail.Post | src/service/luaService.cpp:40-78 | From end to end a send appends exactly one record to what the target accepted and has queued, and says exactly when it is the intended one; it appends nothing for a non-positive message type or a target that is not running |
| Mailbox.Mail.AddService | src/service/serviceMgr.cpp:48-57 | A new service starts with an empty mailbox |
| Mailbox.Mail.CloseService | src/service/serviceMgr.cpp:135-136 | A destroyed service accepts nothing more and its mailbox is gone |
| Locks.DeadlockFree | src/service/serviceMgr.cpp:113-146 | With pop releasing its lock, in every reachable state of any number of threads where some lock is held, some thread that holds a lock can take its next step |
| Locks.Unwinds | src/socket/tcp/server/tcpServerMgr.cpp:73-91 | From every reachable state the threads that hold locks can run on by themselves until all locks are free |
| Locks.CodeRanked | src/websocket/server/websocketServer.cpp:139-168 | Every path of every modelled procedure takes locks in strictly ascending rank and gives all of them back |
| Locks.DestroyRanked | src/service/serviceMgr.cpp:113-146 | So does destoryService, which gives up the service lock before the lock it took last |
| Locks.SendFailsNeat | src/socket/tcp/server/tcpServer.cpp:55-76 | So does the close of a session whose send failed, with its callback and the server's lock under the manager's lock |
| LockNesting.NestingExactly | src/service/service.cpp:113-170 | For every procedure and all its arguments exactly these locks are taken, and exactly these are held at that moment; only destoryService, the poll of a service, the close after a failed send and the close of a websocket take a lock while they hold another |
| Locks.PopsExactly | src/service/msg/serviceMsgPool.cpp:43-62 | With pop as it is written, a procedure keeps the rank and gives back its locks exactly when it does not pop, for every procedure and all its arguments |
| Locks.PopKept | src/service/msg/serviceMsgPool.cpp:43-62 | Every procedure that pops takes the pool's lock and never releases it |
| Locks.PopSticks | src/service/msg/serviceMsgPool.cpp:43-62 | Whichever procedure pops, its thread then holds the pool's lock and cannot release it before it tries to take it again |
| Locks.StuckExactly | src/service/msg/serviceMsgPool.cpp:43-62 | In every run of the code as written, a thread is stuck with the pool's lock exactly when some thread has taken it in a pop |
| Locks.DeadlockFreeUntilPop | src/service/msg/serviceMsgPool.cpp:43-62 | In every run without a pop so far, if some lock is held, some thread that holds a lock can take its next step |
| Locks.PopBlocks | src/service/msg/serviceMsgPool.cpp:43-62 | Once a thread is stuck, in every continuation the lock stays taken and every thread that comes to it stays there for ever |
| Protobuf.NormalForm | src/protobuf/protobuf.cpp:80-377 | For every schema whose types do not contain themselves through singular fields and every Lua value, table to message to table is idempotent |
| Protobuf.BackAgain | src/protobuf/protobuf.cpp:266-377 | Rebuilding a message from its own table gives that message with every unset singular message and scalar set as it reads, strings cut at their first NUL and fields of unsupported types empty |
| Protobuf.RebuiltExactly | src/protobuf/protobuf.cpp:266-377 | A message survives the trip through its table unchanged if and only if all singular messages are set, all scalars that track being set are set, no string has a NUL and no field of an unsupported type holds anything |
| Protobuf.SameTable | src/protobuf/protobuf.cpp:363-369 | Setting what was unset does not change the table |
| Protobuf.ToMsgConforms | src/protobuf/protobuf.cpp:80-264 | Any Lua value, whatever its types, becomes a message that fits the schema, with integers in the range of their field |
| Protobuf.EndsExactly | src/protobuf/protobuf.cpp:363-369 | Message to table ends on every message of every type if and only if no type contains itself through singular fields |
| Protobuf.Enough | src/protobuf/protobuf.cpp:314-320 | How many nested calls suffice: a descent of the ranks for every level of what is set, so recursion through repeated fields does no harm |
| Protobuf.CycleRunsOn | src/protobuf/protobuf.cpp:363-369 | On a cycle of singular fields even an empty message never ends |
| Protobuf.StorePush | src/protobuf/protobuf.cpp:186-225 | An integer in the range of its field type comes back from Lua as itself |
| Protobuf.StoreExactly | src/protobuf/protobuf.cpp:186-225 | An integer is stored as the value in the numeric range of the field's type that is congruent to it modulo the width, so it stays as it is exactly when it is in range |
| Protobuf.PushExactly | src/protobuf/protobuf.cpp:332-352 | Lua gets the integer itself, but for the upper half of the unsigned 64-bit range, which wraps |
| Protobuf.FieldMeans | src/protobuf/protobuf.cpp:186-242 | A singular scalar field holds the table's value, integers modulo the width and strings up to the first NUL; without a value of its type it is unset, or false, zero or empty |
| Protobuf.MessageFieldMeans | src/protobuf/protobuf.cpp:243-255 | A singular message field holds the message built from the table's value of that name, and the default message without one |
| Protobuf.ElementsMean | src/protobuf/protobuf.cpp:96-185 | A repeated field holds, in order, one element for each value of the right type, each with that value's meaning |
| Protobuf.TableExactly | src/protobuf/protobuf.cpp:80-377 | A table comes back from its message unchanged if and only if it has exactly the fields of its type, each with a value of the right type that the field can hold, and no NUL in strings, at every depth |
| Protobuf.ForeachToMsg | src/protobuf/protobuf.cpp:80-264 | The procedure with its loop over the fields computes the specified message; it ends on every finite value because a value that is no table stops it at once |
| Protobuf.ForeachToTable | src/protobuf/protobuf.cpp:266-377 | The procedure with its loop computes the specified table, ending by the measure of set depth, then rank |
| Protobuf.RepeatedToMsg | src/protobuf/protobuf.cpp:96-185 | Elements of the wrong type are dropped, the others kept in order |
| Protobuf.RepeatedToTable | src/protobuf/protobuf.cpp:275-328 | Elements are converted in order; those of an unsupported type leave no gap |
| HttpText.ParseInvertsPrint | lualib/net/http.lua:69-135 | Parsing a printed request returns its method and path; its last-wins query exactly unless the first pair is written like the path; its body exactly when it has no CRLF |
| HttpText.ParsePrinted | lualib/net/http.lua:88-132 | The whole result of parsing a printed request, for every query and every body |
| HttpText.HeadersParsed | lualib/net/http.lua:121-127 | The header table of a printed request has exactly the names of its header lines, each with the last value of that name between the separator and a carriage return |
| HttpText.ParseFails | lualib/net/http.lua:86-95 | The parser fails exactly on a message without CRLF or a first line without a second word |
| HttpText.LinesJoin | lualib/net/http.lua:73-83 | For any input at all the lines cut by the parser, joined with LF, give back the message |
| HttpText.BodyKept | lualib/net/http.lua:132 | A body is reassembled exactly when it has no CRLF; otherwise it grows |
| HttpText.SplitJoin | lualib/api.lua:167-177 | Splitting undoes joining for nonempty parts without the separator |
| HttpText.TargetQuery | lualib/net/http.lua:94-110 | The path and the query pairs are found again in the request target, and when the pairs are skipped |
| HttpText.RestHeaders | lualib/net/http.lua:112-131 | Header lines end at the first empty line and the body's lines follow |
| HttpText.RestExactly | lualib/net/http.lua:112-131 | Whatever lines follow the first: the lines before the first empty one divided where a colon is first followed by a space, the last of a name winning and others passed over, and the lines after it as the body |
| HttpText.SelfDescribing | lualib/net/http.lua:181-209 | Reading a response up to its first empty line gives the status line, the header lines and the body; the length line says the body's length, and is the only one exactly when the user supplied none |
| HttpText.StatusReads | lualib/net/http.lua:181-209 | A recipient of the first line reads HTTP/1.1, the status in decimal digits, and its phrase, for every status |
| HttpText.ResponseReads | lualib/net/http.lua:183-210 | A recipient of any response reads version, status, phrase and body; the header fields it reads are exactly the user's names and values followed by the missing ones, if and only if no name of the user's has a colon |
| HttpText.DecimalReads | lualib/net/http.lua:202 | Printed decimals read back |
| HttpText.ApiSplit | lualib/api.lua:167-177 | The loop computes the longest stretches without the separator |
| HttpText.SplitLines | lualib/net/http.lua:72-83 | The loop cuts at every CRLF, leaving the CR |
| HttpText.ParseQuery | lualib/net/http.lua:96-110 | The loop over the arguments, skipped when the first equals the path |
| HttpText.ReadLines | lualib/net/http.lua:89-129 | The loop over the lines with its isBody switch |
| HttpText.ParseHttpRequest | lualib/net/http.lua:69-135 | The parser computes the specified request, or fails for fewer than two lines or a first line without a second word |
| HttpText.AddLines | lualib/net/http.lua:197-206 | Content-Type and Connection are added when absent, the length always |
| HttpText.FormatHttpResponse | lualib/net/http.lua:183-210 | The formatter computes the specified text, with status 200 and an empty body as defaults |
| Json.RoundTripExactly | src/json/json.cpp:6-155 | Encoding a table and decoding the result gives the same table, array order and object keys included, if and only if it holds no foreign value, only 32-bit integers, no float that is one, no NUL and no empty table inside another |
| Json.ListExactly | src/json/json.cpp:78-152 | A list survives exactly when each of its elements does; dropped elements shift the others |
| Json.DictExactly | src/json/json.cpp:78-152 | A string-keyed table survives exactly when its keys have no NUL and each value survives |
| Json.DecodeReads | src/json/json.cpp:6-67 | An array is read as the list of its elements, an object by the last member of each name, an empty one as an empty table, a number as an integer exactly when it is one of 32 bits |
| Json.BackExactly | src/json/json.cpp:6-155 | What encoding and decoding gives is spelled out for every value: dropped elements leave no gap, integers beyond 32 bits become floats, floats that are integers become integers, strings and keys end at NUL, and of keys that then agree the last one written stays |
| Json.FetchCreateJson | src/json/json.cpp:69-155 | The loop creates the root at the first element, so an empty table gives none, and appends in the order of the traversal |
| Json.FetchCreateLuaTable | src/json/json.cpp:6-67 | The loop numbers unnamed children and sets named ones, later ones over earlier |
| Websocket.SessionTables | src/websocket/server/websocketServer.cpp:113-195 | In every interleaving of any number of sockets the two tables are each other's inverse, and the callbacks of each descriptor are one open, then messages of that same socket, then at most one close |
| Websocket.FreshFds | src/websocket/server/websocketServer.cpp:119-120 | No two opens announce the same descriptor |
| Websocket.SendReaches | src/websocket/server/websocketServer.cpp:35-59 | Data sent to an announced descriptor goes to the socket it was announced for, until that has closed |
| Websocket.EverythingReported | src/websocket/server/websocketServer.cpp:113-195 | In every run what happened to a socket, its opening, its messages with their data and its close, is what was reported of it, in order, followed by at most one thing its thread is still about to report |
| Websocket.OpenExactly | src/websocket/server/websocketServer.cpp:128-129 | An open keeps the tables inverse exactly when its socket is not in them already, since insert does not overwrite |
| Websocket.StepKeeps | src/websocket/server/websocketServer.cpp:113-195 | Each of the six steps into which the locks divide the handler keeps the invariant |
| Websocket.WebsocketServer.OnOpen | src/websocket/server/websocketServer.cpp:117-138 | An open enters both tables under a fresh descriptor and announces it |
| Websocket.WebsocketServer.OnMessage | src/websocket/server/websocketServer.cpp:170-192 | A message is reported under the socket's descriptor; from an unknown socket it is ignored |
| Websocket.WebsocketServer.OnClose | src/websocket/server/websocketServer.cpp:139-169 | A close is reported once and leaves both tables; from an unknown socket it is ignored |
| Websocket.WebsocketServer.Send | src/websocket/server/websocketServer.cpp:35-59 | The socket of the descriptor, or failure |
| TcpServer.SendRoutes | src/socket/tcp/server/tcpServer.cpp:99-118 | A send finds a session exactly when that very session was accepted under the descriptor and not erased since; descriptors are given out in ascending order |
| TcpServer.ReportsInOrder | src/socket/tcp/server/tcpServer.cpp:55-76 | In every run the service hears of the end of a descriptor at most once and after its connect callback exactly when each close of it began while its session was in the table and nobody else was between entering and announcing it, or between reporting its close and erasing it |
| TcpServer.CloseOfNobody | src/socket/tcp/server/tcpServer.cpp:55-76 | For every descriptor and every number there is a run in which nobody ever connects and its close is reported that often |
| TcpServer.StepKeeps | src/socket/tcp/server/tcpServer.cpp:143-170 | Accepting, erasing and the callbacks, in any interleaving, keep the table what the history says |
| TcpServer.TcpServer.OnAcceptor | src/socket/tcp/server/tcpServer.cpp:143-170 | One fresh descriptor, one entry, one callback |
| TcpServer.TcpServer.Close | src/socket/tcp/server/tcpServer.cpp:55-76 | The callback, then the erasure of the entry if there is one |
| TcpServer.TcpServer.Send | src/socket/tcp/server/tcpServer.cpp:99-118 | The session of the descriptor, or failure |

## Left out

- Cluster assumptions: one frame per TCP receive, an address book that leads to the right node, a name registry that does not change, integers of a native string.pack being 32-bit little-endian, at most one HTTP reply per session.
- ClusterRun.EndToEndCorrelation: handlers are assumed to answer only the source and session they were given; a request to relay that did not come through lualib/cluster.lua must name its sender as the one to answer, which ClusterMisuse.Misdelivered shows cannot be dropped.
- ClusterRun.RemoteAnswers: excludes calls to the far node's own cluster service, whose answers come from a third node; ClusterRun.EndToEndCorrelation covers them.
- The tables serves, given, failed and peers of ClusterSystem are history that no code reads (the last is what the sockets know). A failure is the failure of the call named in the request at hand: the one read, captured by the client, or served in the session that ran out of time.
- The branch for unregistered names is modelled as it is: it answers with a text that is not JSON, which the asking node cannot decode, and then goes on to call service 0.
- The listen branch, the connect log and the shutdown function of services/clusterServ.lua: start-up and plumbing. A request to the cluster service whose text is "listen" is dropped, as is one that packing fails on.
- Unlocked fields: `mAutoId++`, the queue push at the end of newService and accesses to `mService` are atomic steps; their relaxed memory behaviour is not modelled.
- ServiceMgr.ServiceMgr.NewService: the number of attempts is a parameter where the code spins for ever; since no worker is ever freed, Scheduler.IdsBounded says how often it can succeed at all.
- ServiceMgr.ServiceMgr.Run: one worker alone, with the services staying as they are; any number of workers, creations and destructions are the subject of Scheduler.
- A service is identified with its id; that a service may be deleted while it is being polled, or pinned after it was destroyed, is a matter of memory safety that no theorem here excludes. Ids are unbounded where the code has 32 bits.
- Sessions.SessionDiscipline: assumes that each HTTP session is answered at most once; Sessions.SecondHttpReply says what happens otherwise.
- api.call and http.get outside a coroutine, and errors inside coroutines beyond ending them: the Lua VM is abstracted to coroutines that run, wait or end.
- Sessions.TimeoutsOverdue: the deadline is what the script says, where api.call adds api.callTimeout to the clock at the call; the clock is the number given to each poll.
- Sessions.MessagesHandled: for batches handled to the end; Sessions.BatchCompletes says which those are. What a handler is given is the message, not its unpacked arguments.
- Sessions.CloseExactly: assumes that no response in the batch is to a session issued during the poll itself, because the batch was taken from the mailbox before.
- TcpServer.ReportsInOrder: the close of the whole server, which clears the table without reports, ends the run.
- The traversal of callCoro while resumed calls add keys to it is undefined in Lua; any sequence of visited keys is allowed.
- Hotfix: which file a path leads to is a finite map, the first loadable candidate; the requires of a body are a fixed list that does not depend on what earlier ones returned; what a placeholder does when it is indexed; `reload`.
- Mailbox: lookup of the target, the check of `mIsInit` and the push are one step; messages dropped or queued at a closed service are never recycled, as in the code. The buffer is a sequence that is reassigned, since std::vector owns its memory.
- Locks: HTTP and TCP client managers, the websocket manager and the environment table use one lock at a time and nest nothing, so they are not listed; callbacks of the socket library made from inside its own send under the websocket lock are taken not to happen; fairness of try_lock with sleeps.
- Protobuf: float, double, enum, bytes, oneof and map fields beyond what the default case does with them; floating-point numbers given for integer fields; unknown fields; required fields, on whose absence encoding fails; the wire format between message and bytes; that converting to a table also sets the missing messages of the message it reads, which decodeProto then discards.
- Protobuf.NormalForm: assumes ranks for the types, which exist exactly when message to table ends at all, by Protobuf.EndsExactly.
- HttpText.SelfDescribing: the reason phrases are a parameter, any texts without CR, because the table of http.lua:137-179 is data; header names and values must not contain CRLF, on which the formatter sets no guard.
- HttpText: the version and header values keep a CR and the separator, as in the code; the router and error replies of HttpServer.
- Json.FetchCreateJson: tables with mixed keys, sparse arrays and NaN; lists are visited in index order, as Lua does for the array part of a table.
- Json.FetchCreateLuaTable: null and unsupported nodes, which encoding never writes; rounding of 64-bit integers to double; the JSON text itself.
- Websocket: events of one socket come one after another and it does not open again before it has closed; callbacks are set before the first event; Websocket.OpenExactly says what a second open would do. Ending a listen clears the tables and starts numbering again.
- The managers' id maps, HTTP client ids, hex codecs, configuration lookups, `queryService`: plain lookups.
- Sockets, timers, DNS, TCP fragmentation, the file system, logging, console, MySQL, Redis, XML and encoding wrappers: foreign libraries and plumbing.
