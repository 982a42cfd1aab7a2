# DobotLink: a model of its protocols and loops

DobotLink is a middleware between browser clients and robots. This project models the
parts of it where the order of events matters, and proves what holds in every order.

| file | models |
|---|---|
| `ThreadPool.dfy` | the worker pool: lazily created threads, one lock, one condition variable, an idle counter, cancellation per owner |
| `FileRequests.dfy` | a file request as job object, pool task, queued signals and timer, all interleaved |
| `JsonRpc.dfy`, `WebSocketServer.dfy` | messages and packets; the server that gives every client message a fresh id and routes the replies back |
| `ArduinoSession.dfy`, `ArduinoRun.dfy`, `ArduinoProgress.dfy` | the plugin that answers one request many times; the compiler's and uploader's processes and what their ends signal; the progress throttle |
| `FileListing.dfy`, `LocalListing.dfy` | the depth-limited breadth-first listing of both file back ends |
| `ChunkedWrite.dfy` | writing and copying through short writes |
| `Utf8Check.dfy` | the byte check before text is shown |
| `CameraStream.dfy` | the length-prefixed camera stream, printer and incremental reader |
| `SearchCoalescing.dfy` | many device searches served by one |
| `DebuggerLite.dfy` | script processes per client port; the rendezvous of a process ending with Wait |
| `FilePaths.dfy` | how the two file back ends name one file |
| `VersionCompare.dfy` | comparing version numbers |
| `Seqs.dfy` | filtering sequences |

Where threads or callbacks interleave, a datatype holds the whole state, a `Step` names one
atomic action (a lock region, a counter update, one event handled by the main loop, one
command), and `Apply` is its effect; a legal sequence of steps is one run. The class beside
it performs the same steps on fields updated in place, and each method's contract equates
the new fields with `Apply`. The theorems are about all runs.

What the model takes from its surroundings: the condition wait may return spuriously, and a
notification wakes any one sleeper. A signal from a worker thread is queued to the main
thread in order and is delivered even if it is disconnected afterwards. Single-shot timers
fire at most once per start and not after being stopped or deleted. A process that crashes
signals an error and then its end, one that cannot be started only an error, and giving up a
wait signals nothing and leaves the process running. JSON is a finite map;
its numbers are integers that a double carries exactly. An SMB write takes any positive part
of the slice or fails, a local read delivers any positive number of bytes before the end,
and a socket delivers any fragmentation. Which processes can be launched and which sockets
are usable are parameters. Fields that record what was received, sent or called exist for
the specification.

Where the code departs from what its comments or names suggest, the model follows the code:

- The pool counts a worker as idle until it decrements the counter, after it popped its
  task and unlocked. A submission in that window creates no thread
  (`ThreadPool.SubmissionFindsClaimant`).
- The plain copy loop writes from the start of its buffer after a short write
  (`ChunkedWrite.PlainCopyExact`).
- The byte check lets through texts that are not UTF-8, 0xFE and 0xFF even counting as lead
  bytes of five-byte characters (`Utf8Check.StandardExactlyWhen`, `AcceptsBeyondStandard`).
- A non-numeric request id comes back as 0 (`WebSocketServer.OwnIdRestored`).
- A version extended by a non-zero component compares as greater from both sides
  (`VersionCompare.AntisymmetricExactlyUnlessExtended`, `NewerInACircle`).
- An ended process whose Wait has come is not answered while a handler nested inside its own
  still lacks a Wait (`DebuggerLite.AnswerableExactlyWhen`, `BlockedHandlerReached`).
- Killing a running process answers under the last id seen, asked or not, answered before or
  not (`DebuggerLite.KillAnswersExactlyWhen`, `StopAnswersUnasked`, `StopAnswersTwice`).
- A Wait before its Start is forgotten, and of two Waits in a round only the second is
  answered (`DebuggerLite.WaitAnsweredExactlyWhen`, `EarlyWaitIsForgotten`).
- A process may be restarted while the handler of its last end still spins; that handler then
  answers the new round's Wait too early (`DebuggerLite.EarlyRestartIsAnsweredEarly`, `EarlyRestartReached`).
- Stopping a process, or closing its socket, deletes it even while the handler of its end spins
  on it, which is what a client does that leaves without a Wait
  (`DebuggerLite.NoHandlerOutlives`, `HandlerOutlivesReached`).
- A crashed compiler or uploader is reported twice, a crashed tool does not keep the next one
  from starting, and a first or second tool that takes over ten seconds leaves the request
  unanswered for good (`ArduinoRun.OneOutcomeLastExactlyWhen`, `CrashReached`,
  `OverrunIsNeverAnswered`).
- A job that reports twice is answered twice unless it timed out
  (`FileRequests.EveryRequestAnswered`, `AnswersReached`).
- A reply to a client that has left may reach another one (`WebSocketServer.ReplyAfterLeaving`).
- A busy Arduino plugin reports so and then takes the new request over all the same
  (`ArduinoSession.ArduinoPlugin.Accept`).
- Three separators in a row survive the one pass that halves them (`FilePaths.NewFolderInShare`).

## Model

| member | source | states |
|---|---|---|
| `ThreadPool.ExactlyOnePlace` | Plugins/IndustrialRobotPlugin/cmythreadpool.cpp:84-128 | in every interleaving a submitted task is in exactly one place (queued, popped, called with false, called with true); its callback runs at most once and never both ways; a running one was called with false |
| `ThreadPool.DequeuedInSubmissionOrder` | Plugins/IndustrialRobotPlugin/cmythreadpool.cpp:160-181 | in every interleaving the dequeued tasks are a prefix of the submissions minus the cancelled ones, in submission order, and all precede the queued ones |
| `ThreadPool.DequeueStaysReachable` | Plugins/IndustrialRobotPlugin/cmythreadpool.cpp:160-181 | no lost wakeup: with work queued, some worker by itself, in at most three of its own steps, dequeues the head |
| `ThreadPool.EveryTaskCanBeCalled` | Plugins/IndustrialRobotPlugin/cmythreadpool.cpp:160-181 | from every reachable state the workers by themselves can go on until the queue is empty and every submitted task was called exactly once, with true if it was cancelled, otherwise with false |
| `ThreadPool.SleepersOnlyWhenCovered` | Plugins/IndustrialRobotPlugin/cmythreadpool.cpp:91-97 | a worker is left asleep only while at least as many awake workers are about to look for work as tasks are queued |
| `ThreadPool.IdleCounterExact` | Plugins/IndustrialRobotPlugin/cmythreadpool.cpp:136-143 | the idle counter is the thread count minus the workers inside a callback, never negative, and the thread count stays within the maximum |
| `ThreadPool.SubmissionFindsClaimant` | Plugins/IndustrialRobotPlugin/cmythreadpool.cpp:92-97 | a submission leaves no worker free to take the task exactly when all workers are busy and the pool is full or one of them has popped its task without having decremented the counter yet |
| `ThreadPool.LateDecrementLeavesTaskWaiting` | Plugins/IndustrialRobotPlugin/cmythreadpool.cpp:173-177 | that window is reachable: one worker, room for a second, and a task nobody is free to take |
| `ThreadPool.ClearRemovesExactlyTheOwner` | Plugins/IndustrialRobotPlugin/cmythreadpool.cpp:112-128 | cancelling an owner removes exactly its queued tasks, calls each of them back once with true, and keeps the order of the rest |
| `ThreadPool.ClearCancelsWhatTheOwnerSubmitted` | Plugins/IndustrialRobotPlugin/cmythreadpool.cpp:84-128 | over every run the i-th submission is kept under the owner named in it, and cancelling an owner cancels exactly the queued tasks whose submission named it |
| `ThreadPool.ClearCallsInOrder` | Plugins/IndustrialRobotPlugin/cmythreadpool.cpp:100-128 | the callbacks of a cancellation follow all earlier ones, with true, in the order of submission |
| `ThreadPool.ClearAllCancelsEverything` | Plugins/IndustrialRobotPlugin/cmythreadpool.cpp:100-110 | cancelling everything empties the queue and calls each queued task back once with true |
| `ThreadPool.SubmitWakesOne` | Plugins/IndustrialRobotPlugin/cmythreadpool.cpp:91-97 | a submission wakes exactly one sleeper if there is one and adds one worker exactly if nobody is idle and there is room |
| `ThreadPool.StepKeepsInv` | Plugins/IndustrialRobotPlugin/cmythreadpool.cpp:84-181 | every lock region, counter update, wake-up and cancellation keeps accounting, work conservation, conservation of tasks and order together |
| `ThreadPool.MyThreadPool.constructor` | Plugins/IndustrialRobotPlugin/cmythreadpool.cpp:65-71 | a new pool has one thread, counted idle, and nothing else |
| `ThreadPool.MyThreadPool.CreateThread` | Plugins/IndustrialRobotPlugin/cmythreadpool.cpp:136-143 | the creation loop adds that many workers and counts each as idle |
| `ThreadPool.MyThreadPool.NotifyOne` | Plugins/IndustrialRobotPlugin/cmythreadpool.cpp:97 | wakes one sleeping worker, any one, if there is one |
| `ThreadPool.MyThreadPool.Start` | Plugins/IndustrialRobotPlugin/cmythreadpool.cpp:84-98 | a started pool queues the task, grows if nobody is idle and there is room, and notifies |
| `ThreadPool.MyThreadPool.ClearAll` | Plugins/IndustrialRobotPlugin/cmythreadpool.cpp:100-110 | the loop calls every queued task back with true, in order, and empties the queue |
| `ThreadPool.MyThreadPool.ClearOwner` | Plugins/IndustrialRobotPlugin/cmythreadpool.cpp:112-128 | the erasing loop over the list is the filter by owner, with one callback per erased task |
| `ThreadPool.MyThreadPool.RunLocked` | Plugins/IndustrialRobotPlugin/cmythreadpool.cpp:164-175 | the locked part of a worker: sleep on an empty queue, otherwise pop the head |
| `ThreadPool.MyThreadPool.RunBegin` | Plugins/IndustrialRobotPlugin/cmythreadpool.cpp:177-178 | decrement, then the callback with false |
| `ThreadPool.MyThreadPool.RunEnd` | Plugins/IndustrialRobotPlugin/cmythreadpool.cpp:179 | increment after the callback |
| `FileRequests.EveryRequestAnswered` | Plugins/IndustrialRobotPlugin/FileControll.cpp:85-121 | once pool and event queue have drained, a cancelled request was never answered, and any other got exactly one answer precisely if it timed out or its job finished exactly once |
| `FileRequests.AnswersReached` | Plugins/IndustrialRobotPlugin/FileControll.cpp:93-99 | for every sequence of results a run of one request reports them all and ends with all of them as answers: two, and none, do happen |
| `FileRequests.AnswersNeverMix` | Plugins/IndustrialRobotPlugin/FileControll.cpp:93-108 | at every moment: after a timeout the only answer is the timeout, otherwise the answers are the first results of the job; a job that finishes at most once is answered at most once |
| `FileRequests.NoHandlerAfterDelete` | Plugins/IndustrialRobotPlugin/FileControll.cpp:93-120 | no begin or finished handler runs, and no timer is running, for a job object whose deletion was already handled |
| `FileRequests.ActionKeepsInv` | Plugins/IndustrialRobotPlugin/IOThread.h:25-38 | every action of pool, job, event loop and timer keeps the joint invariant: a request is where its phase says and its undelivered events complete what it was told |
| `FileRequests.DeliverAllDrains` | Plugins/IndustrialRobotPlugin/FileControll.cpp:93-108 | handling everything queued settles every job that has returned |
| `FileRequests.FileControl.ClosureHandler` | Plugins/IndustrialRobotPlugin/FileControll.cpp:85-110 | creates the job with a stopped timer and connected signals |
| `FileRequests.FileControl.OnBegin` | Plugins/IndustrialRobotPlugin/FileControll.cpp:100-102 | the begin slot starts the timer and nothing else |
| `FileRequests.FileControl.OnFinished` | Plugins/IndustrialRobotPlugin/FileControll.cpp:93-99 | the finished slot answers unless timed out, and stops the timer |
| `FileRequests.FileControl.OnTimeout` | Plugins/IndustrialRobotPlugin/FileControll.cpp:103-108 | the timeout slot marks, disconnects and answers with a timeout |
| `FileRequests.FileControl.ProcessEvents` | Plugins/IndustrialRobotPlugin/FileControll.cpp:93-108 | running the loop until the queue is empty leaves every returned job answered |
| `JsonRpc.ResultPacket.constructor` | DobotLink/MessageCenter/DPacket.cpp:68-73 | a reply starts with version, client port and id of its request |
| `JsonRpc.ResultPacket.GetResultObj` | DobotLink/MessageCenter/DPacket.cpp:85-93 | adds the result, `true` standing for none, and leaves the routing members |
| `JsonRpc.ResultPacket.GetErrorObj` | DobotLink/MessageCenter/DPacket.cpp:95-105 | adds an error with that code and, if not empty, that message, and leaves the routing members |
| `JsonRpc.ResultTold` | DobotLink/MessageCenter/DPacket.cpp:85-93 | a reply tells the result as it is, `true` only for none, beside the request's port and id |
| `JsonRpc.PortCut` | DobotLink/MessageCenter/DPacket.cpp:18-20 | a 32-bit port is cut to its last 16 bits, anything else counts as 0 |
| `JsonRpc.BuildResult` | DobotLink/MessageCenter/DPacket.cpp:68-93 | a reply built from a request carries that request's port, cut to 16 bits as it was read, and its id |
| `WebSocketServer.PendingWellFormed` | DobotLink/Module/DWebSocketServer.cpp:227-267 | over all runs the map holds exactly the forwarded requests whose first reply has not come and whose sender has not left; ids are within those given out and name connected clients |
| `WebSocketServer.FirstReplyRouted` | DobotLink/Module/DWebSocketServer.cpp:44-64 | the first reply with inner id k goes to the sender of message k under that message's id, other members unchanged, and consumes only that entry |
| `WebSocketServer.OwnIdRestored` | DobotLink/Module/DWebSocketServer.cpp:143-164 | the id given back is the member the client sent exactly when that member was a number |
| `WebSocketServer.ForwardedKeepsRequest` | DobotLink/Module/DWebSocketServer.cpp:186-242 | over every run the k-th message is forwarded for its sender under the number k, with the sender's id beside it and every other member as it was; text that is no object goes on unchanged |
| `WebSocketServer.SentToOneUsable` | DobotLink/Module/DWebSocketServer.cpp:44-89 | a plugin's message goes to one usable connected client or to nobody: to the one that asked if its request is pending, otherwise to one with the port, its own id restored and the rest unchanged; exactly when nothing is sent |
| `WebSocketServer.ClientsFollow` | DobotLink/Module/DWebSocketServer.cpp:117-136 | a client is connected from its connection until it leaves or the server closes; the latest one's port stands for port 0 |
| `WebSocketServer.ClosedAsLeft` | DobotLink/Module/DWebSocketServer.cpp:245-267 | over every run exactly the ports of the clients that left are announced as closed, in that order |
| `WebSocketServer.UnknownIdConsumesNothing` | DobotLink/Module/DWebSocketServer.cpp:52-59 | a message without id, or with one never given out, consumes no entry |
| `WebSocketServer.RequestGetsItsReply` | DobotLink/Module/DWebSocketServer.cpp:44-103 | end to end: request, any other traffic, one plugin reply built from the forwarded request; the client receives it under its own id |
| `WebSocketServer.EveryReplyReachesRequester` | DobotLink/Module/DWebSocketServer.cpp:61-80 | in every reachable state a reply carrying inner and origin id reaches the requesting client under its own id, first or later, if that client is alone on its port |
| `WebSocketServer.RepliesKeepArriving` | DobotLink/Module/DWebSocketServer.cpp:52-80 | the same over a whole run in which the client stays and any number of replies went before |
| `WebSocketServer.PortIdentifiesClient` | DobotLink/Module/DWebSocketServer.cpp:66-80 | a message with no pending entry is sure to reach a given client exactly when no other usable client has its port |
| `WebSocketServer.ReplyAfterLeaving` | DobotLink/Module/DWebSocketServer.cpp:61-80 | a reply to a client that has left reaches somebody, never that client, exactly when another usable client has its port |
| `WebSocketServer.StrangerIsAnswered` | DobotLink/Module/DWebSocketServer.cpp:66-80 | that is reached: a later client on the port gets an answer to a request it never sent |
| `WebSocketServer.PortZeroMeansLatest` | DobotLink/Module/DWebSocketServer.cpp:46-47 | port 0 stands for the client that connected last |
| `WebSocketServer.StepKeepsInv` | DobotLink/Module/DWebSocketServer.cpp:44-267 | every connect, message, reply, disconnect and shutdown keeps map and history in agreement |
| `WebSocketServer.MessageServer.ExchangeJsonrpcId` | DobotLink/Module/DWebSocketServer.cpp:143-164 | replaces the id, hands back the old one, touches nothing else; fails on text that is no object |
| `WebSocketServer.MessageServer.InsertOriginJsonrpcId` | DobotLink/Module/DWebSocketServer.cpp:186-202 | adds the sender's id as a second member |
| `WebSocketServer.MessageServer.RevertOriginJsonrpc` | DobotLink/Module/DWebSocketServer.cpp:204-224 | moves that member back over the id when present |
| `WebSocketServer.MessageServer.OnNewConnection` | DobotLink/Module/DWebSocketServer.cpp:117-136 | registers the client and remembers its port |
| `WebSocketServer.MessageServer.OnClientMessageReceived` | DobotLink/Module/DWebSocketServer.cpp:227-242 | gives the message a fresh inner id, remembers its sender, forwards it with both ids |
| `WebSocketServer.MessageServer.EraseEntries` | DobotLink/Module/DWebSocketServer.cpp:251-262 | the erasing walk keeps exactly the other clients' entries |
| `WebSocketServer.MessageServer.OnClientDisconnection` | DobotLink/Module/DWebSocketServer.cpp:245-267 | removes the client and its entries and announces its port as closed |
| `WebSocketServer.MessageServer.SendByPort` | DobotLink/Module/DWebSocketServer.cpp:66-85 | the search loop sends to one usable client on the port, or to nobody if there is none |
| `WebSocketServer.MessageServer.SendMessage` | DobotLink/Module/DWebSocketServer.cpp:44-89 | routes by inner id if known, otherwise by port |
| `WebSocketServer.MessageServer.SendMessageObj` | DobotLink/Module/DWebSocketServer.cpp:91-103 | takes the port, a 32-bit integer cut to 16 bits, off the object and routes the rest |
| `WebSocketServer.MessageServer.Close` | DobotLink/Module/DWebSocketServer.cpp:105-114 | forgets all clients and entries |
| `ArduinoSession.SessionReachesClient` | Plugins/ArduinoPlugin/ArduinoPlugin.cpp:161-209 | end to end, whatever compiler and uploader signal: whichever message about a request is next, after any traffic in which the client stays and is alone on its port, it reaches the client under its own id with the payload unchanged |
| `ArduinoSession.TalkIsAbout` | Plugins/ArduinoPlugin/ArduinoPlugin.cpp:161-209 | whatever is signalled, every message is a result or an error about the one request |
| `ArduinoRun.OneOutcomeLastExactlyWhen` | Plugins/ArduinoPlugin/DAvrCompiler.cpp:127-361 | a request gets exactly one outcome, as its last message, if and only if no process that was started crashed, avr-g++ and avr-gcc ended within their ten seconds, and the others ended at all |
| `ArduinoRun.OutcomesCounted` | Plugins/ArduinoPlugin/DAvrCompiler.cpp:314-361 | every process that was started and crashed adds two outcomes, a request that concludes one |
| `ArduinoRun.NeverAnsweredExactlyWhen` | Plugins/ArduinoPlugin/DAvrCompiler.cpp:227-231 | a request gets no outcome at all, so that the plugin stays busy, exactly if nothing crashed and not all ended well |
| `ArduinoRun.SuccessExactlyWhen` | Plugins/ArduinoPlugin/DAvrUploader.cpp:178-191 | the client is told of success exactly if the last tool ended normally and the uploader returned with a clean log |
| `ArduinoRun.OutcomeCodes` | Plugins/ArduinoPlugin/DAvrUploader.cpp:178-206 | for every fate of the processes, the outcomes the client gets and their codes, in order |
| `ArduinoRun.FailureTold` | Plugins/ArduinoPlugin/ArduinoPacket.cpp:76-98 | an error message carries its code, its text if not empty, and no result |
| `ArduinoRun.ProgressMessage` | Plugins/ArduinoPlugin/ArduinoPlugin.cpp:187-209 | a progress message names its stage, its percentage and its total |
| `ArduinoRun.CrashIsToldTwice` | Plugins/ArduinoPlugin/DAvrCompiler.cpp:314-361 | after every crash of avr-g++ in time two errors come first, and avr-gcc's progress follows if it ends normally |
| `ArduinoRun.CrashReached` | Plugins/ArduinoPlugin/DAvrCompiler.cpp:314-361 | a run with two outcomes whose last message is progress |
| `ArduinoRun.OverrunIsNeverAnswered` | Plugins/ArduinoPlugin/DAvrCompiler.cpp:227-231 | a first or second tool that ends normally but late leaves the request without an outcome |
| `ArduinoRun.LateLastToolIsAnswered` | Plugins/ArduinoPlugin/DAvrCompiler.cpp:297-301 | the last tool may end late: its end still starts the upload and one outcome follows |
| `ArduinoRun.RunTotalsNeverDecrease` | Plugins/ArduinoPlugin/ArduinoPlugin.cpp:187-208 | however the processes end, the totals in the messages of one request never decrease and stay in 0..100 |
| `ArduinoRun.AvrCompiler.OnProcessFinished` | Plugins/ArduinoPlugin/DAvrCompiler.cpp:314-353 | the slot for an ended tool: progress, or an error; the last tool's normal end finishes the compilation |
| `ArduinoRun.AvrCompiler.OnErrorOccurred` | Plugins/ArduinoPlugin/DAvrCompiler.cpp:355-361 | the slot for an error of a process |
| `ArduinoRun.AvrCompiler.StartAndWait` | Plugins/ArduinoPlugin/DAvrCompiler.cpp:223-231 | a tool is over, could not start, or still runs when the wait ends; only the first goes on, crashed or not |
| `ArduinoRun.AvrCompiler.StartCompile` | Plugins/ArduinoPlugin/DAvrCompiler.cpp:127-302 | the checks and the three tools one after the other; what it emitted and what the tool left running will emit are the specified events |
| `ArduinoRun.AvrCompiler.Compile` | Plugins/ArduinoPlugin/DAvrCompiler.cpp:127-361 | with what the event loop hears later, exactly the specified events |
| `ArduinoRun.AvrUploader.StartUpload` | Plugins/ArduinoPlugin/DAvrUploader.cpp:70-141 | each failing check is reported, otherwise the process is launched |
| `ArduinoRun.AvrUploader.OnProcessFinished` | Plugins/ArduinoPlugin/DAvrUploader.cpp:178-198 | a crash, an error or a timeout in the log, or success |
| `ArduinoRun.AvrUploader.OnErrorOccurred` | Plugins/ArduinoPlugin/DAvrUploader.cpp:200-206 | an error of the process is an outcome |
| `ArduinoRun.AvrUploader.Signal` | Plugins/ArduinoPlugin/DAvrUploader.cpp:178-206 | a crash is reported by both slots |
| `ArduinoSession.ArduinoPlugin.Serve` | Plugins/ArduinoPlugin/ArduinoPlugin.cpp:161-209 | delivering any events sends exactly their messages, and the plugin is busy until the first outcome |
| `ArduinoSession.ArduinoPlugin.Deliver` | Plugins/ArduinoPlugin/ArduinoPlugin.cpp:161-209 | each event goes to its slot |
| `ArduinoSession.ArduinoPlugin.Accept` | Plugins/ArduinoPlugin/ArduinoPlugin.cpp:70-98 | an accepted request's ids and port are kept; a busy plugin says so, to the port of the earlier request, and takes the new one over |
| `ArduinoSession.ArduinoPlugin.HandleProcessPercent` | Plugins/ArduinoPlugin/ArduinoPlugin.cpp:187-209 | every progress message carries the kept ids and port, the stage, its percentage and the total |
| `ArduinoSession.ArduinoPlugin.HandleCompileFinish` | Plugins/ArduinoPlugin/ArduinoPlugin.cpp:161-171 | a failed compilation is reported under the kept ids and ends the request; a finished one starts the upload silently |
| `ArduinoSession.ArduinoPlugin.HandleUploadFinish` | Plugins/ArduinoPlugin/ArduinoPlugin.cpp:173-185 | the outcome is reported under the kept ids and ends the request |
| `ArduinoSession.ReplyPacket.constructor` | Plugins/ArduinoPlugin/ArduinoPacket.cpp:62-69 | a reply starts with port, inner id, origin id and version |
| `ArduinoSession.ReplyPacket.SetErrorObj` | Plugins/ArduinoPlugin/ArduinoPacket.cpp:76-84 | a non-zero code is offset by the base, a non-empty message added |
| `ArduinoSession.ReplyPacket.GetResultObj` | Plugins/ArduinoPlugin/ArduinoPacket.cpp:86-98 | an error wins over a result; an empty result is reported as true |
| `FileListing.ListingIsRecursive` | Plugins/IndustrialRobotPlugin/IOThreadSmb.cpp:396-435 | the breadth-first listing equals the definition by recursion on the tree, level after level |
| `FileListing.ListedExactly` | Plugins/IndustrialRobotPlugin/IOThreadSmb.cpp:396-435 | a path is listed exactly when it is a file at some depth within the limit |
| `FileListing.FilesHere` | Plugins/IndustrialRobotPlugin/IOThreadSmb.cpp:414-425 | the files of a directory are those the disk lists in it, under its path |
| `FileListing.FilesBelow` | Plugins/IndustrialRobotPlugin/IOThreadSmb.cpp:408-428 | one deeper are the files that deep below one of its subdirectories |
| `FileListing.PickedConcat` | Plugins/IndustrialRobotPlugin/IOThreadSmb.cpp:414-425 | entries are taken in the order the server lists them |
| `FileListing.EachFileOnce` | Plugins/IndustrialRobotPlugin/IOThreadSmb.cpp:409-428 | with proper names no path is listed twice |
| `FileListing.FileLister.SetDepth` | Plugins/IndustrialRobotPlugin/IOThreadSmb.h:264-267 | a negative depth counts as 0 |
| `FileListing.FileLister.ReadDir` | Plugins/IndustrialRobotPlugin/IOThreadSmb.cpp:414-425 | the entry loop splits a directory into files and directories, in order |
| `FileListing.FileLister.ReadLevel` | Plugins/IndustrialRobotPlugin/IOThreadSmb.cpp:408-428 | the loop over one level; a directory that does not open contributes nothing |
| `FileListing.EraseUnmatched` | Plugins/IndustrialRobotPlugin/IOThreadSmb.cpp:443-454 | the erasing loop keeps exactly the matching paths, in order |
| `FileListing.ApplyFilters` | Plugins/IndustrialRobotPlugin/IOThreadSmb.cpp:437-460 | after all passes exactly what every wildcard matches is left, in order; stopping early on an empty list changes nothing |
| `FileListing.FileLister.Run` | Plugins/IndustrialRobotPlugin/IOThreadSmb.cpp:392-465 | the whole loop returns, in level order, exactly the files within the depth that every wildcard matches; its queue holds one level at most and it terminates |
| `LocalListing.LocalLister.constructor` | Plugins/IndustrialRobotPlugin/IOThread.cpp:445-457 | the root gets its final separator and a negative depth counts as 0 |
| `LocalListing.LocalLister.ReadDir` | Plugins/IndustrialRobotPlugin/IOThread.cpp:486-497 | the entry loop, which skips hidden directories |
| `LocalListing.LocalLister.OpenDir` | Plugins/IndustrialRobotPlugin/IOThread.cpp:480-486 | the directory is opened with a final separator, added where missing |
| `LocalListing.LocalLister.ReadLevel` | Plugins/IndustrialRobotPlugin/IOThread.cpp:478-498 | the loop over one level |
| `LocalListing.LocalLister.Exec` | Plugins/IndustrialRobotPlugin/IOThread.cpp:464-513 | the same levels in the same order, of the visible entries |
| `LocalListing.ListsInTheOpen` | Plugins/IndustrialRobotPlugin/IOThread.cpp:486-497 | this back end lists what the other lists, in the same order, less the files whose path enters a directory starting with a dot |
| `LocalListing.BackEndsAgree` | Plugins/IndustrialRobotPlugin/IOThread.cpp:489-496 | both back ends list the same exactly when no file listed by the other lies in such a directory |
| `LocalListing.LevelsAgree` | Plugins/IndustrialRobotPlugin/IOThread.cpp:486-497 | when the back ends see a directory's entries in different orders, they still list the same files at every depth, less what lies in hidden directories |
| `LocalListing.NothingHidden` | Plugins/IndustrialRobotPlugin/IOThread.cpp:489-496 | without hidden directories they agree, whatever the names |
| `ChunkedWrite.SambaFile.Write` | Plugins/SmbClientWrapper/src/CSambaFile.cpp:254-269 | a write takes between one byte and all of the slice, or nothing; an empty slice is never written; each is on record |
| `ChunkedWrite.WriteBatch` | Plugins/IndustrialRobotPlugin/IOThreadSmb.cpp:80-98 | for every behaviour of short writes, each write offers what is still missing; success, exactly if every write took something, appends exactly the data; failure appends a proper prefix; the loop ends |
| `ChunkedWrite.WriteJob.Run` | Plugins/IndustrialRobotPlugin/IOThreadSmb.cpp:126-143 | reports once on every path; success exactly when the remote file equals the data, and a failed write exactly when the last write took nothing |
| `ChunkedWrite.CopyBlocks` | Plugins/IndustrialRobotPlugin/IOThreadSmb.cpp:527-550 | block by block: an exact copy at the end of the file, otherwise a prefix, with the code of the first read or write that failed or of the deadline |
| `ChunkedWrite.CopyJob.Run` | Plugins/IndustrialRobotPlugin/IOThreadSmb.cpp:492-551 | reports once on every path, with that path's code, and with an exact copy on success |
| `ChunkedWrite.PlainWriteBlock` | Plugins/IndustrialRobotPlugin/IOThread.cpp:613-624 | what the other back end's write loop really appends: each write starts at the front of the buffer; it fails exactly if a write takes nothing |
| `ChunkedWrite.PlainCopyExact` | Plugins/IndustrialRobotPlugin/IOThread.cpp:613-624 | that loop copies every block of a size exactly if and only if the first write takes the whole block |
| `Utf8Check.MachineIsGrammar` | Plugins/IndustrialRobotPlugin/Mobdebug.cpp:29-67 | counting continuation bytes accepts exactly the concatenations of ASCII bytes and lead bytes with their continuations |
| `Utf8Check.ParseUnique` | Plugins/IndustrialRobotPlugin/Mobdebug.cpp:38-58 | a byte string splits into such units in one way only |
| `Utf8Check.AcceptsConcat` | Plugins/IndustrialRobotPlugin/Mobdebug.cpp:33-61 | after an accepted text acceptance depends on the rest alone |
| `Utf8Check.UnitLengthIsLeadingOnes` | Plugins/IndustrialRobotPlugin/Mobdebug.cpp:38-50 | a unit is as long as its lead byte has leading ones, seven or eight counting as five; a byte with a single one continues a unit |
| `Utf8Check.StandardTextAccepted` | Plugins/IndustrialRobotPlugin/Mobdebug.cpp:29-67 | every encoding of Unicode scalar values under section 3 of RFC 3629 is accepted |
| `Utf8Check.StandardExactlyWhen` | Plugins/IndustrialRobotPlugin/Mobdebug.cpp:29-67 | an accepted text is an encoding of Unicode scalar values exactly when each of its units passes a test of its bytes: nothing overlong, no surrogate, nothing above U+10FFFF, no five or six bytes |
| `Utf8Check.DecodeEncode` | Plugins/IndustrialRobotPlugin/Mobdebug.cpp:38-50 | every scalar value encodes to such a unit and is decoded from it |
| `Utf8Check.EncodeDecode` | Plugins/IndustrialRobotPlugin/Mobdebug.cpp:38-50 | every such unit decodes to a scalar value and is its encoding |
| `Utf8Check.AcceptsBeyondStandard` | Plugins/IndustrialRobotPlugin/Mobdebug.cpp:43-48 | overlong, surrogate and 0xFF-led units are accepted although they encode nothing |
| `Utf8Check.CanConvertToUtf8` | Plugins/IndustrialRobotPlugin/Mobdebug.cpp:29-67 | the loop decides membership in the grammar |
| `Utf8Check.BytesToUtf8` | Plugins/IndustrialRobotPlugin/Mobdebug.cpp:74-82 | empty input shows nothing, accepted input its decoding, anything else five question marks |
| `CameraStream.ShownIsPrefixOfSent` | DobotLink/Views/DRemoteMonitorForm.cpp:54-72 | under any fragmentation and any notifications the images decoded are a prefix of those sent, and no size is pending exactly at frame boundaries |
| `CameraStream.BufferedFramesDecoded` | DobotLink/Views/DRemoteMonitorForm.cpp:59-71 | two notifications per buffered frame decode them all, except that a last frame with fewer than nine bytes left is held back, and only such a one |
| `CameraStream.SlotKeepsStep` | DobotLink/Views/DRemoteMonitorForm.cpp:54-72 | every notification keeps reader and wire in step |
| `CameraStream.BigEndianRoundTrip` | DobotLink/Views/DLocalMonitorForm.cpp:87-96 | a number in range is read back from its big-endian bytes |
| `CameraStream.LeastSignificantLast` | DobotLink/Views/DLocalMonitorForm.cpp:87-96 | numbers are written most significant byte first |
| `CameraStream.FrameLayout` | DobotLink/Views/DLocalMonitorForm.cpp:87-96 | a frame is eight bytes of total, four of length, and the image |
| `CameraStream.PrintFrame` | DobotLink/Views/DLocalMonitorForm.cpp:82-96 | writing a blank total, the data, and then the total over the blank gives the frame |
| `CameraStream.RemoteMonitor.OnReadyRead` | DobotLink/Views/DRemoteMonitorForm.cpp:54-72 | one notification takes one step: a size, an image, or nothing |
| `SearchCoalescing.OneSearchAtDevice` | Plugins/IndustrialRobotPlugin/IndustrialRobotPlugin.cpp:427-437 | over all runs searches are waiting exactly while one search is at the device, and never two |
| `SearchCoalescing.EverySearchAnsweredOnce` | Plugins/IndustrialRobotPlugin/IndustrialRobotPlugin.cpp:211-220 | searches are answered once each, in order of arrival, and all of them when none is running |
| `SearchCoalescing.SearchOutcomeHandedOn` | Plugins/IndustrialRobotPlugin/IndustrialRobotPlugin.cpp:211-220 | over all runs the outcome of a search is handed as it is to every search not answered yet, in order of arrival |
| `SearchCoalescing.OrdinaryOutcomeHandedOn` | Plugins/IndustrialRobotPlugin/IndustrialRobotPlugin.cpp:122-133 | the outcome of any other command goes to that command's client as it is, and the command is done |
| `SearchCoalescing.UnaskedOutcomeHandedOn` | Plugins/IndustrialRobotPlugin/IndustrialRobotPlugin.cpp:122-133 | what a device says under an unknown id goes to its own client |
| `SearchCoalescing.CommandRefusedExactlyWhen` | Plugins/IndustrialRobotPlugin/IndustrialRobotPlugin.cpp:387-458 | a command naming no port or no registered device gets the matching error and is forgotten; any other is kept and at a device, unless it is a search joining one under way |
| `SearchCoalescing.OrderedIsArrival` | Plugins/IndustrialRobotPlugin/IndustrialRobotPlugin.cpp:213-219 | taking the smallest id first answers in order of arrival when ids increase |
| `SearchCoalescing.RobotPlugin.HandleCommand` | Plugins/IndustrialRobotPlugin/IndustrialRobotPlugin.cpp:387-458 | the first search goes to the device, later ones only wait; a command naming no port or no registered device is refused with the matching error and forgotten |
| `SearchCoalescing.RobotPlugin.FlushSearches` | Plugins/IndustrialRobotPlugin/IndustrialRobotPlugin.cpp:213-219 | the loop answers and forgets every waiting search |
| `SearchCoalescing.RobotPlugin.HandleReply` | Plugins/IndustrialRobotPlugin/IndustrialRobotPlugin.cpp:122-133 | an answer or error of the device ends its request, and a search ends all that wait |
| `DebuggerLite.StepIsolated` | Plugins/DebuggerlitePlugin/DebuggerlitePlugin.cpp:182-436 | every command and event of a port leaves other ports' processes as they were, answers that port only, truthfully and about its own processes, and keeps keys equal to process ids |
| `DebuggerLite.IdsNeverReused` | Plugins/DebuggerlitePlugin/DProcess.cpp:10-16 | over every run a process id, once gone, does not come back |
| `DebuggerLite.CloseLeavesOthers` | Plugins/DebuggerlitePlugin/DebuggerlitePlugin.cpp:26-42 | closing a port leaves exactly the other ports' processes; closing port 0 leaves none |
| `DebuggerLite.RunWritesOwn` | Plugins/DebuggerlitePlugin/DebuggerlitePlugin.cpp:268-301 | over every run a port writes only to running processes of its own |
| `DebuggerLite.RefusedExactly` | Plugins/DebuggerlitePlugin/DebuggerlitePlugin.cpp:182-210 | Start, Wait, Stop and Input naming no process, an unknown one or another port's are told exactly that, and nothing else happens |
| `DebuggerLite.StartTells` | Plugins/DebuggerlitePlugin/DebuggerlitePlugin.cpp:212-227 | Start is told Ok exactly if the process then runs |
| `DebuggerLite.InputTells` | Plugins/DebuggerlitePlugin/DebuggerlitePlugin.cpp:268-301 | Input is told Ok exactly if the process took it, which it does if it runs and the write succeeds |
| `DebuggerLite.PrepareTells` | Plugins/DebuggerlitePlugin/DebuggerlitePlugin.cpp:149-180 | without a script nothing is prepared; a failed preparation only uses up an id |
| `DebuggerLite.StartAllStarts` | Plugins/DebuggerlitePlugin/DebuggerlitePlugin.cpp:353-382 | every process of the port that can be launched runs afterwards, and no other is touched |
| `DebuggerLite.AnsweredOnceUnderItsId` | Plugins/DebuggerlitePlugin/DebuggerlitePlugin.cpp:149-436 | every command is answered once, under its own id, except an accepted Wait; events answer only Waits |
| `DebuggerLite.HistoryIsTrue` | Plugins/DebuggerlitePlugin/DebuggerlitePlugin.cpp:108-242 | over every run the history of Waits is exactly the accepted ones, and its answers exactly the completions sent |
| `DebuggerLite.NoHandlerOutlives` | Plugins/DebuggerlitePlugin/DebuggerlitePlugin.cpp:26-42 | over every run, no handler outlives its process if and only if no Stop and no closed socket hits a process whose handler still spins |
| `DebuggerLite.HandlerOutlivesReached` | Plugins/DebuggerlitePlugin/DebuggerlitePlugin.cpp:244-261 | a run reaches that by Stop and one by a closed socket: the script ended and its client did not wait |
| `DebuggerLite.AnswersFollowTheirWait` | Plugins/DebuggerlitePlugin/DebuggerlitePlugin.cpp:108-126 | over every run without restarts under a spinning handler, kills and stray Waits included: every answer falls in a round, under the latest Wait's id; a handler's directly follows that Wait, a kill's follows it or the start |
| `DebuggerLite.WaitAnsweredExactlyWhen` | Plugins/DebuggerlitePlugin/DebuggerlitePlugin.cpp:229-242 | over the same runs, at rest: a Wait after its Start is answered exactly if no further Wait came first and the process was not deleted under its handler; one before its Start, or a second time, only by a kill straight after a later start |
| `DebuggerLite.KillAnswersExactlyWhen` | Plugins/DebuggerlitePlugin/DProcess.cpp:196-238 | a kill answers a Wait of its round exactly if the flag was set; with Waits in turn that is exactly when an accepted Wait is unanswered |
| `DebuggerLite.EveryWaitAnsweredOnce` | Plugins/DebuggerlitePlugin/DebuggerlitePlugin.cpp:108-126 | over every run with Waits in turn, whatever is killed or deleted, each Wait is answered once, in order, under its own id, but for at most the latest, which is due or was lost with its process; there are no other answers exactly if nothing was killed before its Wait |
| `DebuggerLite.StepTold` | Plugins/DebuggerlitePlugin/DebuggerlitePlugin.cpp:108-436 | every step keeps the fields of each process (round open, flag, latest id) equal to what its history says |
| `DebuggerLite.AnswerNeedsBoth` | Plugins/DebuggerlitePlugin/DebuggerlitePlugin.cpp:120-125 | in every reachable state a handler answers only for a process that has ended and whose last deed is its Wait, and carries that Wait's id |
| `DebuggerLite.ArrivalOrderIrrelevant` | Plugins/DebuggerlitePlugin/DebuggerlitePlugin.cpp:108-126 | ending first or Wait first leads to the same state and the same replies |
| `DebuggerLite.AnswerableExactlyWhen` | Plugins/DebuggerlitePlugin/DebuggerlitePlugin.cpp:120-123 | handlers nest: an ended process with its Wait can be answered without further commands exactly when every handler inside it has its Wait too |
| `DebuggerLite.BlockedHandlerReached` | Plugins/DebuggerlitePlugin/DebuggerlitePlugin.cpp:120-123 | a run reaches that: an ended process with its Wait that is not answered |
| `DebuggerLite.StopAnswersUnasked` | Plugins/DebuggerlitePlugin/DProcess.cpp:203-236 | a run in which stopping a process completes a Wait that nobody sent, under id 0 |
| `DebuggerLite.StopAnswersTwice` | Plugins/DebuggerlitePlugin/DProcess.cpp:203-236 | a run in which one Wait is answered twice |
| `DebuggerLite.KillRepeatsLatest` | Plugins/DebuggerlitePlugin/DProcess.cpp:203-236 | every Stop of a running process with no Wait unanswered sends the latest id once more |
| `DebuggerLite.EarlyWaitIsForgotten` | Plugins/DebuggerlitePlugin/DProcess.cpp:161-168 | from every state, a Wait before its Start leaves the handler of the end spinning |
| `DebuggerLite.EarlyRestartIsAnsweredEarly` | Plugins/DebuggerlitePlugin/DProcess.cpp:161-168 | from every state, a process restarted under its spinning handler, at whatever depth, has its Wait answered while it runs, once each process from there inwards has a Wait |
| `DebuggerLite.EarlyRestartReached` | Plugins/DebuggerlitePlugin/DProcess.cpp:161-168 | a run from the start that reaches it |
| `DebuggerLite.DebuggerPlugin.HandlePrepare` | Plugins/DebuggerlitePlugin/DebuggerlitePlugin.cpp:149-180 | a new process under the next id, or a reported failure that still uses up the id |
| `DebuggerLite.DebuggerPlugin.GetProc` | Plugins/DebuggerlitePlugin/DebuggerlitePlugin.cpp:182-210 | refuses a missing, unknown or foreign process id with the matching error |
| `DebuggerLite.DebuggerPlugin.HandleStart` | Plugins/DebuggerlitePlugin/DebuggerlitePlugin.cpp:212-227 | starts the process, clearing the flag, unless it runs already |
| `DebuggerLite.DebuggerPlugin.HandleWait` | Plugins/DebuggerlitePlugin/DebuggerlitePlugin.cpp:229-242 | records the id and sets the flag, without replying |
| `DebuggerLite.DebuggerPlugin.HandleStop` | Plugins/DebuggerlitePlugin/DebuggerlitePlugin.cpp:244-261 | stops, removes and deletes the process, even under its handler |
| `DebuggerLite.DebuggerPlugin.HandleInput` | Plugins/DebuggerlitePlugin/DebuggerlitePlugin.cpp:268-301 | writes to a running process or reports why not |
| `DebuggerLite.DebuggerPlugin.StartProcess` | Plugins/DebuggerlitePlugin/DProcess.cpp:161-194 | starts a process that does not run, clearing its flag, and says whether it runs |
| `DebuggerLite.DebuggerPlugin.StartOwned` | Plugins/DebuggerlitePlugin/DebuggerlitePlugin.cpp:360-377 | the loop starts exactly the port's processes, by increasing id, and notes each result and whether all succeeded |
| `DebuggerLite.DebuggerPlugin.HandleStartAll` | Plugins/DebuggerlitePlugin/DebuggerlitePlugin.cpp:353-382 | reports those results |
| `DebuggerLite.DebuggerPlugin.StopAmong` | Plugins/DebuggerlitePlugin/DebuggerlitePlugin.cpp:391-408 | the loop stops exactly the selected processes, by increasing id |
| `DebuggerLite.DebuggerPlugin.HandleStopAll` | Plugins/DebuggerlitePlugin/DebuggerlitePlugin.cpp:384-413 | stops the port's processes but keeps them, and reports each as stopped |
| `DebuggerLite.DebuggerPlugin.HandleClose` | Plugins/DebuggerlitePlugin/DebuggerlitePlugin.cpp:26-42 | the loop stops, deletes and removes the port's processes by increasing id, for port 0 all |
| `DebuggerLite.DebuggerPlugin.HandleGetProcessStatus` | Plugins/DebuggerlitePlugin/DebuggerlitePlugin.cpp:415-436 | reports whether each of the port's processes runs |
| `DebuggerLite.DebuggerPlugin.LeaveLoops` | Plugins/DebuggerlitePlugin/DebuggerlitePlugin.cpp:120-125 | the innermost handlers whose flag is set answer one after the other, until one lacks its Wait |
| `ArduinoProgress.TotalsNeverDecrease` | Plugins/ArduinoPlugin/ArduinoPlugin.cpp:187-208 | whichever compile stages are reported, for any chunking of the marks and any throttle value left behind, the totals of one request never decrease and stay in 0..100 |
| `ArduinoProgress.MessagesBounded` | Plugins/ArduinoPlugin/DAvrUploader.cpp:166-176 | an upload sends at most one message per ten marks read, and one more |
| `ArduinoProgress.ReportsKeepUp` | Plugins/ArduinoPlugin/DAvrUploader.cpp:166-176 | once a percentage was reported, every count above 52 that is ten or more past the last one reported is reported too |
| `ArduinoProgress.SilentOnlyBelow` | Plugins/ArduinoPlugin/DAvrUploader.cpp:166-176 | an upload without a single report ended at 52 marks at most, or below the throttle value left behind |
| `ArduinoProgress.TensReported` | Plugins/ArduinoPlugin/DAvrUploader.cpp:166-176 | mark by mark the reports are 0, 2, 10, 20 and so on |
| `ArduinoProgress.Uploader.HandlePercentValue` | Plugins/ArduinoPlugin/DAvrUploader.cpp:166-176 | the throttle step |
| `ArduinoProgress.Uploader.OnReadyRead` | Plugins/ArduinoPlugin/DAvrUploader.cpp:150-163 | a chunk adds its marks; one without marks changes nothing |
| `ArduinoProgress.Uploader.Upload` | Plugins/ArduinoPlugin/DAvrUploader.cpp:144-176 | a sequence of chunks sends exactly the specified percentages |
| `FilePaths.JoinPath` | Plugins/IndustrialRobotPlugin/FileControll.cpp:65-83 | server, then each part with exactly one separator put before it where it lacks one; the names in it are those of the server and the parts, in order |
| `FilePaths.JoinedParts` | Plugins/IndustrialRobotPlugin/FileControll.cpp:65-83 | joining runs no names together and adds none |
| `FilePaths.SlashedOnce` | Plugins/IndustrialRobotPlugin/FileControll.cpp:72-80 | a part that brings its separator gets no second one |
| `FilePaths.InShareSpelled` | Plugins/IndustrialRobotPlugin/FileControllSmb.cpp:41-47 | lying in the share means starting with its name, behind a slash or without one |
| `FilePaths.RelativeCuts` | Plugins/IndustrialRobotPlugin/FileControllSmb.cpp:41-47 | everything up to the first occurrence of the share's name, and one separator of either kind after it, is cut |
| `FilePaths.RelativeElsewhere` | Plugins/IndustrialRobotPlugin/FileControllSmb.cpp:41-47 | a path without the share's name keeps all but one leading separator |
| `FilePaths.RelativeOfShare` | Plugins/IndustrialRobotPlugin/FileControllSmb.cpp:41-47 | for a path in the share the relative part comes back whole, even if it contains the share's name again |
| `FilePaths.SameFileExactlyInShare` | Plugins/IndustrialRobotPlugin/FileControllSmb.cpp:41-47 | both back ends name the same file for exactly the paths that lie in the project share |
| `FilePaths.NewFolderInShare` | Plugins/IndustrialRobotPlugin/FileControllSmb.cpp:315-333 | for every url in the share and every folder name, with any separators, the path is the names joined by single slashes exactly when no three separators meet (those in front aside) |
| `FilePaths.HalvedExactly` | Plugins/IndustrialRobotPlugin/FileControllSmb.cpp:317 | one replacement pass leaves no doubled slash exactly when there were never three in a row |
| `FilePaths.NewFolderTidy` | Plugins/IndustrialRobotPlugin/FileControllSmb.cpp:315-333 | below a tidy path the names are simply joined, with and without a final slash on the url |
| `FilePaths.ThreeSlashesStay` | Plugins/IndustrialRobotPlugin/FileControllSmb.cpp:315-317 | a final slash on the url and one in front of the name leave a doubled slash |
| `FilePaths.NewFolderPath` | Plugins/IndustrialRobotPlugin/FileControllSmb.cpp:315-333 | the edits in place compute that path |
| `FilePaths.LookalikeIsCut` | Plugins/IndustrialRobotPlugin/FileControllSmb.cpp:42-44 | outside the share a directory merely containing the name is cut away |
| `VersionCompare.CompareVersion` | DobotLink/Upgrade/DUpgrade.cpp:28-57 | the loops return what the order on components says |
| `VersionCompare.CompareAt` | DobotLink/Upgrade/DUpgrade.cpp:36-42 | the first component that differs decides: 1 if it is larger, -1 if smaller |
| `VersionCompare.ZeroIsEquality` | DobotLink/Upgrade/DUpgrade.cpp:28-57 | result 0 means the zero-padded component lists are equal, which is an equivalence relation |
| `VersionCompare.AntisymmetricExactlyUnlessExtended` | DobotLink/Upgrade/DUpgrade.cpp:43-55 | swapping the arguments negates the result exactly unless one list extends the other by something other than zeros, where both calls return 1 |
| `VersionCompare.OlderIsTransitive` | DobotLink/Upgrade/DUpgrade.cpp:36-42 | being older (-1) is transitive on lists of any lengths |
| `VersionCompare.NewerTransitiveExactlyWhen` | DobotLink/Upgrade/DUpgrade.cpp:36-55 | being newer (1) carries over to everything below exactly when the lead shows in a component both lists have, as it always does on lists of one length |
| `VersionCompare.NewerInACircle` | DobotLink/Upgrade/DUpgrade.cpp:43-55 | 1.1 and 1 each count as newer than the other |

## Left out

- Pool shutdown: clearing the started flag, joining the threads, tasks submitted afterwards, and the deleter thread; the pool is modelled while started.
- Thread and object lifetime outside file requests: destructors, and clients whose sockets are deleted while a message is under way.
- JSON beyond maps: arrays, fractional or larger ids (beyond 2^53), and the text syntax itself; an object is re-serialised without change.
- Splitting a method name into target and api, choosing the plugin, and the plugins not named above.
- Rejected Arduino requests, and what a request taken over from a busy plugin does to the one before; sessions are of one request. Of a process's errors only a failed start and a crash are modelled, not read and write errors.
- SMB connection setup and timeouts below the file operations; connecting and opening are parameters.
- `LocalListing.LocalLister.Exec`: wildcards are not modelled there, because that back end lets the file system apply them to each directory it reads, to subdirectories as well as files; the entries given are those it returns. A root written with a final backslash is not modelled.
- `LocalListing.BackEndsAgree`: assumes entry names without separators, which the file system guarantees; `NothingHidden` does not.
- `FileListing.EachFileOnce`: assumes entry names without separators and distinct within a directory, which the file system guarantees.
- `ChunkedWrite.CopyBlocks`: a deadline that passes right after the last block is reported as a timeout although the copy is complete, as the program does.
- The regular expressions behind wildcards, base64, compression and image decoding; matchers and decoders are function parameters.
- A reconnect of the camera reader with a pending size from the previous connection.
- The registry of connected robot devices and its removal loops.
- `SearchCoalescing.RobotPlugin.HandleCommand`: connecting a device goes to the device like any command; what it registers is not modelled.
- `DebuggerLite.DebuggerPlugin.LeaveLoops`: says nothing of a handler whose process was deleted, which reads freed memory; the model lets it spin.
- The fallback of the debugger's stop that signals an end twice after 200 ms; a kill is one step.
- `DebuggerLite.EveryWaitAnsweredOnce`: assumes one Wait per round, within the round, because other Waits are lost (`WaitAnsweredExactlyWhen` says which); both assume no restart under a spinning handler, because from every such state the rendezvous breaks (`EarlyRestartIsAnsweredEarly`).
- Process output, temporary script files and module installation of the debugger plugin.
- Parsing version components from text, and 32-bit overflow in it.
- All windows other than the two ends of the camera stream, firmware downloads, plugin loading, settings, logging and translations.
