# TinySwarm in Dafny

TinySwarm is a small cluster manager. A *manager* keeps a table of *pods*, sends each to a *worker*, and writes
every change to a log it can replay after a crash. A *worker* starts the processes, restarts or reports those that
exit, and gives every manager a lease: a manager that stays silent too long loses its pods, and the next call it
makes is answered "Manager Down", once.

This project models the parts where that can go wrong and proves what holds:

| file | what it models |
|---|---|
| `Wrappers.dfy` | option, result, and the two readings of lines that contradict their comments |
| `Sublists.dfy` | what a loop that filters a list is for, told from positions |
| `LockFreeQueue.dfy` | the queue between the signal handler and the worker, as interleaved loads and stores over a heap |
| `LogQueue.dfy` | the manager's log queue: appending thread, flusher thread and destructor, interleaved |
| `Text.dfy`, `HttpParser.dfy` | printing and parsing HTTP messages with `size_t` wrap-around |
| `Streams.dfy`, `PodDescriptor.dfy` | `stringstream` extraction; the printed pod and its reader |
| `ManagerLog.dfy` | the lines of the log and the laws of replay |
| `Snapshot.dfy` | the snapshot file, printed and read back |
| `Manager.dfy` | the manager: create, stop, check, replay of one line |
| `CrashRecovery.dfy` | what a crash after any log line leaves |
| `Recovery.dfy` | `recover`, and what the files on disk are worth while and after it runs |
| `Worker.dfy` | the worker: its pods, exits, leases and the calls it serves |
| `Lease.dfy`, `LeaseTime.dfy`, `Exits.dfy` | whole runs of the worker: exact index, lease protocol and when a lease ends, exits, reports, restart budget |
| `Joint.dfy` | a manager and one of its workers together |
| `ServiceRetry.dfy` | restarting missing pods, and the queues that retry |
| `Scheduler.dfy` | the round-robin scheduler's loop |

Time, remote outcomes, what `fork` and `kill` do, and the order of hash maps are parameters of the steps, so a
theorem holds for all of them. An RPC has an outcome the caller cannot choose: no answer, or an answer with a `fail`
flag and a text.

Code that changes objects in place is a class whose methods are proved equal to a function on the object's abstract
state (`AsState`); the theorems about whole runs are lemmas about those functions. The two concurrent queues are
machines of atomic steps; the methods of their classes are proved to be runs of those machines in which one thread
alone moves.

## Where the code and its comments disagree

The code is followed. Two places have a parameter of type `Reading`, and theorems hold for both of its values unless
they name one:

- The alias guard of `fork` turns down free aliases (worker/RPCInterface.cpp:29). As written, a worker that runs
  nothing never starts anything (`Lease.AsWrittenStartsNothing`).
- `createPod` lists the address of a local descriptor, which its destructor takes off the list again
  (manager/Manager.cpp:105). The list is modelled as addresses there, and the destructor is run
  (`Manager.DestructorRemoves`): as written the pod is on no list (`Joint.CreatePodIsListedIff`).

Others are results:

- The periodic pass over exits ends with a null entry and re-locks its own mutex on a restart. `Worker.HandleExits`
  is what it is for; `Exits.PassSurvivesIff` says exactly when the code as written gets that far.
- A log file the logger had to create never receives a line: it is opened twice, the second `open` fails, and what
  is written to the failed stream is lost (manager/LogQueue.cpp:58-63): `LogQueue.NothingIsLostIff`,
  `LogQueue.CreatedFileStaysEmpty`. That is the first start and every start after a `recover` that came to its end.
- A wake-up can be lost between the flusher's test for pending lines and its clearing of the flag
  (manager/LogQueue.cpp:24-25): the destructor, which is to wait until everything is written, can wait for ever
  (`LogQueue.DestructorReturnsIff`, `LogQueue.DestructorCanHang`), and an appended line can stay pending
  (`LogQueue.PendingIsFlushedIff`).
- `recover` removes the log, while the logger goes on with the file it has open: `Recovery.RemovedLogForgetsIff`
  against `Recovery.KeptLogRecovers`.
- The snapshot is written by `recover` alone (manager/Manager.cpp:589), before any worker is connected
  (manager/main.cpp:89), so a worker connected since is in none. A pod on it comes back without a worker and
  `createService` follows the null pointer: `CrashRecovery.CreateRecoversIff`, `Recovery.StartEndsIff`. No later start
  gets further (`Recovery.NoStartEndsAgain`), and from a first start on no snapshot ever lists a worker or a pod
  (`Recovery.NothingIsEverRestored`).
- A pod's line prints the executable's parameters twice and the container's never: `PodDescriptor.PodComesBackIff`.
- A pod called "Fail" is not recovered: `CrashRecovery.CreateRecoversIff`, `CrashRecovery.SelectRecoversIff`.
- Creating a taken alias through `selectWorkerToCreatePod`: `CrashRecovery.ReselectRecoversIff`.
- A create that is retried after "Manager Down" is left off its worker's list: `Joint.CreatedIsListedIff`.
- A "Manager Down" that is lost leaves pods believed alive: `Joint.LostDownAtOnceIff`, and a whole run that ends so
  in `Joint.LostDownRun`. A restart without executable loses the pod: `Joint.FailedRestartIff`.
- A container's process that cannot be killed leaves the index pointing at a pod that is gone:
  `Lease.DockerStopIndexIff`.
- `restart == -1` is documented as "whenever" (manager/Manager.h:62) and means never: `Exits.ExitIsAnsweredOnce`.
- The restart loop's bound shrinks while it runs, so it starts half of what is missing: `ServiceRetry.HalfIsStarted`.
  With more pods than wanted its bound wraps round: `ServiceRetry.GuardWrapsIff`.
- The parser does not return from a response without headers, and from a request without headers only if its body
  can be taken for them: `HttpParser.HeaderlessResponseNeverReturns`, `HttpParser.HeaderlessRequestIff`; "GET"
  anywhere in a POST line costs the method its last letter: `HttpParser.RequestComesBackIff`.
- The scheduler's loop never moves on: `Scheduler.ReturnsIff`. The first call of a new one never returns:
  `Scheduler.FirstCallNeverReturns`.

## Model

| member | source | states |
|---|---|---|
| LockFreeQueue.AnyInterleavingIsSafe | worker/util/LockFreeQueue.h:24-64 | under every interleaving of the loads and stores of one producer and one consumer no deleted node is touched, no null link followed, no node leaked, and the values popped are a prefix of those pushed |
| LockFreeQueue.StepKeeps | worker/util/LockFreeQueue.h:24-64 | each atomic step keeps the chain from head to tail spelling exactly the values pushed and not yet taken |
| LockFreeQueue.InitIsSafe | worker/util/LockFreeQueue.h:33 | a new queue satisfies the invariant |
| LockFreeQueue.ConsumerView | worker/util/LockFreeQueue.h:24-30 | at any instant head equals tail exactly when every published value has been taken |
| LockFreeQueue.EmptyPopMeansDrained | worker/util/LockFreeQueue.h:46-50 | `pop` comes back empty only at an instant when everything published has been popped |
| LockFreeQueue.PushAlone | worker/util/LockFreeQueue.h:57-64 | the producer's five steps together fill the dummy, link a new one and publish it |
| LockFreeQueue.PopAlone | worker/util/LockFreeQueue.h:46-54 | the consumer's six steps together unlink and delete the first node and return its value |
| LockFreeQueue.Queue.Push | worker/util/LockFreeQueue.h:57-64 | appends the value to what was pushed and keeps the invariant, reused addresses included |
| LockFreeQueue.Queue.Pop | worker/util/LockFreeQueue.h:46-54 | returns the oldest value not yet popped and frees exactly its node, nothing exactly when the queue is drained |
| LogQueue.StepKeeps | manager/LogQueue.cpp:8-87 | each atomic step keeps file, lost lines, batch in flight and pending list together equal to the old lines and the history; a good stream loses nothing, a failed one leaves its file empty |
| LogQueue.NothingIsLostIff | manager/LogQueue.cpp:8-87 | the same over every interleaving of appender, flusher and destructor; once the destructor has returned the file holds its old lines and the whole history exactly when it was there to be opened or nothing was appended |
| LogQueue.CreatedFileStaysEmpty | manager/LogQueue.cpp:55-87 | a whole run, one append, one flush and the destructor, after which the file the constructor created is empty |
| LogQueue.FileIsAlwaysAPrefix | manager/LogQueue.cpp:23-44 | at any instant the file holds its old lines and then a prefix of what was appended, nothing if it had to be created |
| LogQueue.AppendReturnsItsLine | manager/LogQueue.cpp:8-21 | the n-th append returns n and its slice is the n-th line behind those the file held when it was opened; that line is there in the end exactly when the file was |
| LogQueue.AppendAlone | manager/LogQueue.cpp:8-21 | six steps of the appending thread from rest are one append: pending list, counter and wake-up flag |
| LogQueue.FlushAlone | manager/LogQueue.cpp:23-53 | the flusher's steps through one flush write everything pending to the stream, or put the flusher to sleep when nothing is |
| LogQueue.DestructorReturnsIff | manager/LogQueue.cpp:23-87 | once the destructor waits for the flusher some schedule lets it return exactly when the flusher was not between its test of `quit` and its sleep, nor asleep with the flag cleared |
| LogQueue.DestructorCanReturn | manager/LogQueue.cpp:72-87 | from the first test of the destructor, wherever the flusher stands, there is a schedule in which it returns |
| LogQueue.DestructorCanHang | manager/LogQueue.cpp:46-87 | a run from a new queue whose destructor never returns, whatever is scheduled |
| LogQueue.PendingIsFlushedIff | manager/LogQueue.cpp:8-53 | after an append the flusher alone gets what is pending to the stream exactly when it was not about to clear the wake-up flag, or asleep with it cleared |
| LogQueue.Queue.Append | manager/LogQueue.cpp:8-21 | is that run of the machine, keeps its invariant and returns how many slices have been appended |
| LogQueue.Queue.FlushOnce | manager/LogQueue.cpp:23-44 | is that run of the machine; afterwards the file holds its old lines and the whole history, or nothing if it had to be created; false exactly when nothing was pending |
| HttpParser.SplitTerminatesIff | Common/HTTPParser.h:58-68 | the loop of `splitString` reaches `npos + 2` exactly when no line end follows the last colon, or there is no line end |
| HttpParser.SplitString | Common/HTTPParser.h:58-68 | the loop computes the map the specification gives, wherever that ends |
| HttpParser.SplitOfBlock | Common/HTTPParser.h:58-68 | on lines `key:value` with clean keys and values it returns the pairs, first value of a key winning |
| HttpParser.FirstWinsMeaning | Common/HTTPParser.h:65 | every key maps to the first value given for it, and no other key is there |
| HttpParser.MoveNext | Common/HTTPParser.h:21-24 | moves just behind the next occurrence of the symbol |
| HttpParser.ParseHeaderUri | Common/HTTPParser.h:26-55 | method, URL and version as the request line gives them |
| HttpParser.ParserReqMessage | Common/HTTPParser.h:70-88 | the parsed request, every index in range, for every text on which the original returns |
| HttpParser.ParseResHeadline | Common/HTTPParser.h:90-109 | version, status and reason of a status line; false exactly when it has no slash |
| HttpParser.StatusLineNeverThrows | Common/HTTPParser.h:90-109 | no status line makes it throw, and it finds nothing exactly where there is no slash |
| HttpParser.ParserResMessage | Common/HTTPParser.h:111-128 | the parsed response, for every text on which the original returns |
| HttpParser.GetReqMessage | Common/HTTPParser.h:130-149 | appends the printed request, or nothing and false unless there are three request parts |
| HttpParser.GetResMessage | Common/HTTPParser.h:151-170 | the same for responses, with the blank line before the headers |
| HttpParser.PrintedShape | Common/HTTPParser.h:130-170 | the literal text of a printed request and response around their header lines and body |
| HttpParser.RequestRoundTrip | Common/HTTPParser.h:21-149 | a printed POST with headers always parses, and URL, version, headers and body come back, the body up to its first blank line |
| HttpParser.RequestComesBackIff | Common/HTTPParser.h:21-149 | the whole request comes back exactly when its line does not contain "GET" and the first blank line of body and trailer is the trailer |
| HttpParser.GetRequestRoundTrip | Common/HTTPParser.h:70-88 | a printed GET comes back with its headers, its body is not read |
| HttpParser.ResponseRoundTrip | Common/HTTPParser.h:90-170 | a printed response comes back with status line, headers and body, spaces in the reason included |
| HttpParser.BodyBackIff | Common/HTTPParser.h:83-84 | a body survives exactly when its own trailer is the first blank line |
| HttpParser.HeadersComeBack | Common/HTTPParser.h:138-140 | whatever order the hash map is walked in, the parsed headers are the map printed |
| HttpParser.HeaderlessRequestIff | Common/HTTPParser.h:58-88 | a request printed without headers is parsed exactly when its body starts with a line end, or its text up to the first blank line has a colon no line end follows |
| HttpParser.HeaderlessResponseNeverReturns | Common/HTTPParser.h:58-128 | a response printed without headers sends the header loop round for ever, whatever its body |
| PodDescriptor.ToSnapshotMessage | manager/PodDescriptor.cpp:40-60 | the printed line, executable parameters twice |
| PodDescriptor.FindWorkerDescriptor | manager/Manager.cpp:200-206 | the place of the first descriptor with that address, past the end exactly when there is none |
| PodDescriptor.CutParams | manager/Manager.cpp:484-489 | the pieces between commas are appended, and what the loop variable is left with |
| PodDescriptor.SnapshotToServiceInfo | manager/Manager.cpp:466-500 | the statement-by-statement reader computes the decoding function, exceptions of `substr` included |
| PodDescriptor.PodLineRoundTrip | manager/Manager.cpp:466-500 | for whitespace-free names, parameters without blank or comma, any port and restart, decoding a printed pod gives every printed field back |
| PodDescriptor.PodComesBackIff | manager/PodDescriptor.cpp:40-60 | the whole pod comes back exactly when its worker is known and both parameter lists agree; printing what was read prints the same line |
| PodDescriptor.DecodeBindsFirst | manager/Manager.cpp:475-478 | whatever line is decoded, the pod is bound to the first descriptor with the address on the line |
| PodDescriptor.SameDescriptorIff | manager/Manager.cpp:475-478 | a printed pod of the k-th worker is bound to that very descriptor again exactly when no earlier one has the same address |
| ManagerLog.StartLinesDoNothing | manager/Manager.cpp:507-509 | CSS and DSS lines change no table |
| ManagerLog.StopEndIsRead | manager/Manager.cpp:511-515 | a DSE line erases its alias exactly when it says Success |
| ManagerLog.CreateFailIsRead | manager/Manager.cpp:516-525 | a CSE line of a failed create changes no table |
| ManagerLog.CreateEndIsReadIff | manager/Manager.cpp:516-529 | a CSE line of a success puts the printed pod back unless its alias is "Fail" |
| ManagerLog.LinesAreReadIff | manager/Manager.cpp:502-531 | every printed form of line is read as its own effect exactly when the alias is not "Fail" |
| ManagerLog.ReplaySplit | manager/Manager.cpp:567-572 | replaying two stretches is replaying one after the other |
| ManagerLog.SummaryIsReplay | manager/Manager.cpp:511-528 | what replay does to one alias, with `emplace` never overwriting and `erase` on success |
| ManagerLog.ReplayTwice | manager/Manager.cpp:502-531 | replaying lines a second time changes nothing |
| ManagerLog.RestartAnywhere | manager/Manager.cpp:562-573 | replaying from any line j onto the table of the first k lines, j up to k, is replaying the whole log |
| Snapshot.Print | manager/Manager.cpp:441-461 | the file's text: line number, workers, end mark, pods, end mark |
| Snapshot.LoadPeers | manager/Manager.cpp:547-552 | the loop reads the workers up to the end mark |
| Snapshot.LoadPods | manager/Manager.cpp:554-559 | the loop reads the pods up to the end mark, first of an alias winning |
| Snapshot.LoadSnapshot | manager/Manager.cpp:539-560 | the statement-by-statement reader computes the loading function, exceptions of `stoi` included |
| Snapshot.PeerLineRoundTrip | manager/Manager.cpp:449-452 | a printed worker is read back, and its line is no end mark |
| Snapshot.SnapshotRoundTrip | manager/Manager.cpp:434-560 | printing any line number, workers and bound pods in any order and reading back through both end marks gives them all back, each pod on its worker |
| Manager.Manager.RemovePodDescriptor | manager/WorkerDescriptor.h:31-40 | takes the first entry for the pod off the worker's list |
| Manager.Manager.ManagerDown | manager/Manager.cpp:325-329 | every pod on the worker's list is dead and noted as down, and the list is empty |
| Manager.Manager.ErasePod | manager/PodDescriptor.cpp:21-24 | erasing an entry takes it off its worker's list |
| Manager.Manager.CreateService | manager/Manager.cpp:292-350 | log lines, table and lists after any number of "Manager Down" answers and a final one |
| Manager.Manager.SelectWorkerToCreatePod | manager/Manager.cpp:9-33 | the same for the whole call, undone when no worker was found or the create failed |
| Manager.Manager.CreatePod | manager/Manager.cpp:35-110 | the same for `createPod`; a taken alias or a missing worker changes nothing; the list of addresses is left by the destructor of the local descriptor |
| Manager.DestructorRemoves | manager/PodDescriptor.cpp:21-24 | leaving `createPod` takes exactly a pushed `&info` off the list again, and nothing when an entry's address was pushed |
| Manager.CreateVerdict | manager/Manager.cpp:35-110 | through all retries: on success the table as it was, the listed pods dead if a "Manager Down" came first, plus exactly the new pod, alive, so that a stop of it is sent; on failure without it; lists, noted pods and log |
| Manager.SelectVerdict | manager/Manager.cpp:9-33 | the same for `selectWorkerToCreatePod`, its alias free or taken, its entry listed from the start; without a worker only a taken alias is changed |
| Manager.Manager.StopPod | manager/Manager.cpp:112-137 | the pod is unlisted, and erased or put back dead according to the answer; a dead pod is not stopped |
| Manager.Manager.CheckServices | manager/Manager.cpp:352-411 | pods reported down, all pods, or none are dead, according to the answer |
| Manager.StopVerdict | manager/Manager.cpp:112-137 | a pod that was told to stop is gone exactly on success or "Manager Down", otherwise dead and listed again; other pods change only by "Manager Down" |
| Manager.StopLeaves | manager/Manager.cpp:112-137 | what a stop leaves alone, what it logs, and that a dead pod is put back on its list with nothing sent or logged |
| Manager.ReportNotesFailures | manager/Manager.cpp:395-410 | a report notes as down exactly the known pods whose exit number is not 0, in order |
| Manager.CheckVerdict | manager/Manager.cpp:352-411 | a pod is alive after a check exactly when it was and the answer does not name it, "*" and no answer naming the pods on that worker's list; nothing else of any pod changes; which pods are noted, and which workers are up |
| Manager.Manager.ParseLogLine | manager/Manager.cpp:502-531 | applies the effect of the line to the table |
| CrashRecovery.CallAppends | manager/Manager.cpp:9-137 | a call appends nothing and keeps the table, or a line that does nothing and a line whose replay commits the change |
| CrashRecovery.CrashAnywhere | manager/Manager.cpp:502-531 | for every run of creates, stops and checks with any outcomes and a crash after any number of lines, replay gives exactly the pods committed by then, on no worker where recovery does not list theirs; so the whole table is back exactly when it lists them all |
| CrashRecovery.CrashFromEmpty | manager/Manager.cpp:502-531 | the same from an empty manager and an empty log |
| CrashRecovery.CrashAtAnyInstant | manager/LogQueue.cpp:8-44 | the same for the lines that reached the file at any instant of the log queue's threads, behind whatever lines it held; a file that had to be created holds none |
| CrashRecovery.SelectRecoversIff | manager/Manager.cpp:523-525 | a pod placed by the scheduler and created with success is read back exactly when it is not called "Fail", and the whole table is back exactly when, besides, recovery lists its worker and those of the others |
| CrashRecovery.CreateRecoversIff | manager/Manager.cpp:523-525 | the same for a pod `createPod` created |
| CrashRecovery.ReselectRecoversIff | manager/Manager.cpp:14-30 | creating a taken alias again leaves log and table in agreement exactly when it succeeds on the worker the pod was on, recovery listing every worker |
| Recovery.BootIsReplay | manager/Manager.cpp:562-573 | starting from a snapshot whose line number lags behind its table is starting from the whole log |
| Recovery.RecreateChangesNothing | manager/Manager.cpp:580-587 | creating every pod again changes only which pods are alive, and every line it appends is inert |
| Recovery.NewTextLoads | manager/Manager.cpp:434-597 | the snapshot a start writes is read back by the next: the number of lines, the same workers, alive as they were reached, and every pod, alive as its create went |
| Recovery.RecreatedVerdict | manager/Manager.cpp:580-587 | with empty lists each pod is alive exactly when its create succeeded, those that failed are noted in order, and two lines are logged for each |
| Recovery.RecoveryIsCrashSafe | manager/Manager.cpp:533-596 | dying at any instant of recovery, before or after the new snapshot or the removal of the log, the next start finds the table this one found |
| Recovery.StartEndsIff | manager/Manager.cpp:561-582 | after every run and a crash after any number of lines, recovery reaches its end exactly when the snapshot lists the worker of every pod committed by then |
| Recovery.NoStartEndsAgain | manager/Manager.cpp:580-582 | a start that met a pod without a worker leaves files in which the next start, however much of the log was written and however the map is walked, meets one again |
| Recovery.NothingIsEverRestored | manager/Manager.cpp:533-596 | over every series of starts, the first without a snapshot, whatever logs they find: no snapshot lists a worker or a pod, and a start reaches its end exactly when the log gives no pod |
| Recovery.KeptLogRecovers | manager/Manager.cpp:589-595 | were the log kept, every later crash would be recovered from too, completely exactly when the snapshot lists the workers of all pods committed |
| Recovery.CoreAfterRun | manager/Manager.cpp:9-137 | after a run an alias is as the last call that changed it left it: absent, or with what that create was given |
| Recovery.RemovedLogForgetsIff | manager/Manager.cpp:593-594 | as written, after any run the next start is right exactly when every alias that was changed is back to what the snapshot has of it: last stopped and absent, or last created with the same values |
| Recovery.ReplayLog | manager/Manager.cpp:562-573 | the loop replays the lines behind `cur_line` and stops at an exception |
| Recovery.RecreatePods | manager/Manager.cpp:580-587 | the loop creates every pod again and notes those that failed as down, up to a pod without a worker |
| Recovery.Recover | manager/Manager.cpp:533-596 | exceptions; a null worker followed exactly when some recovered pod has none; otherwise table, lists and log after recovery, the text of the new snapshot, and `cur_line` back at 0 |
| Worker.WorkerNode.GetOrAdd | worker/WorkerNode.cpp:493-504 | the manager's lease is renewed or begun |
| Worker.WorkerNode.UpdateTimestamp | worker/WorkerNode.cpp:484-491 | a known manager's lease is renewed |
| Worker.WorkerNode.IsManagerDown | worker/WorkerNode.cpp:472-482 | tells whether the lease had ended, and clears that |
| Worker.WorkerNode.DeletePodInManagerDescriptor | worker/WorkerNode.cpp:506-514 | takes the first entry with the pid off the descriptor |
| Worker.WorkerNode.RunProcess | worker/WorkerNode.cpp:60-222 | the pod joins the list and its owner's descriptor, or nothing happens when a host executable is missing |
| Worker.WorkerNode.StopListed | worker/WorkerNode.cpp:230-257 | forced stop by pid: the list forgets the pod, the descriptor does not |
| Worker.WorkerNode.StopHost | worker/WorkerNode.cpp:259-285 | the result code, and the pod is off list and descriptor exactly when it is 0 |
| Worker.WorkerNode.StopDocker | worker/WorkerNode.cpp:312-344 | the same for containers, where the list forgets the pod even when the kill fails |
| Worker.WorkerNode.CheckIfAliasOK | worker/WorkerNode.cpp:346-354 | fine exactly when no listed pod has the alias, otherwise whose it is |
| Worker.WorkerNode.ExitOne | worker/WorkerNode.cpp:369-416 | one exit: the pod is off, then started again, reported, or forgotten |
| Worker.WorkerNode.CheckIfPodsRunning | worker/WorkerNode.cpp:356-418 | all queued exits handled in order, the queue empty |
| Worker.WorkerNode.CollectExitInformation | worker/WorkerNode.cpp:446-463 | the manager's reports leave the list in order, the others stay in order |
| Worker.WorkerNode.ExpireOne | worker/WorkerNode.cpp:529-539 | every pod the descriptor lists is stopped, the descriptor empty, the status -1 |
| Worker.WorkerNode.RemoveUnused | worker/WorkerNode.cpp:516-542 | at most the first expired manager in map order, nothing for a negative limit |
| Worker.WorkerNode.ForkRpc | worker/RPCInterface.cpp:10-125 | the guards in order, the answer and the new state |
| Worker.WorkerNode.ShutdownRpc | worker/RPCInterface.cpp:127-165 | the same for shutdown |
| Worker.WorkerNode.CheckRpc | worker/RPCInterface.cpp:168-202 | the same for check |
| Lease.StepKeeps | worker/WorkerNode.cpp:207-542 | after every step each manager's descriptor lists exactly its pods, in order, and a lease has ended only for managers without pods |
| Lease.IndexIsAlwaysExact | worker/WorkerNode.cpp:207-542 | the same over every run |
| Lease.ExpiryTakesExactlyItsPods | worker/WorkerNode.cpp:529-540 | although every stop leaves the descriptor stale, expiry stops exactly the manager's pods and leaves all others in order |
| Lease.DockerStopIndexIff | worker/WorkerNode.cpp:312-344 | stopping a container keeps the index exact exactly when its process is killed, there is no pod of the alias, or the first one is another manager's |
| Lease.LeaseTakesTurns | worker/WorkerNode.cpp:472-542 | over every run ends of a manager's lease and "Manager Down" answers to it take turns, and no pod of it is started between an end and the next answer |
| Lease.SaidDownIff | worker/RPCInterface.cpp:62-71 | the step labelled so is the one, and the only one, that answers "Manager Down" |
| Lease.LabelsAreSo | worker/RPCInterface.cpp:10-202 | what is counted as delivered is what a check is answered, and what is counted as a start put its pod on the list |
| Lease.ForkStartsIff | worker/RPCInterface.cpp:10-125 | a process is started exactly when service, port, lease and executable are there and the alias is free, as documented, or taken, as written; a call turned down earlier changes nothing, the lease's news included |
| Lease.ForkTellsWhy | worker/RPCInterface.cpp:10-125 | which text a create is answered with, told from the first pod of its alias, that pod's owner, and the lease, under either reading |
| Lease.ShutdownStopsIff | worker/RPCInterface.cpp:127-165 | a stop succeeds exactly when the first pod of the alias is the caller's, its process is killed and the lease has not ended; exactly that pod leaves the list, a container's even when it is not killed |
| Lease.ShutdownTellsWhy | worker/RPCInterface.cpp:127-165 | which text a stop is answered with |
| Lease.OwnerHoldsLease | worker/WorkerNode.cpp:493-504 | a manager that owns a listed pod holds its lease, so renewing it there clears no end |
| LeaseTime.LeaseEndsBySilence | worker/WorkerNode.cpp:472-542 | over every run a lease that ends at a time is ended by the pass, its last renewal, by an admitted create, a check, a stop or an exit of its pod, more than the limit before |
| LeaseTime.PassEndsFirstSilent | worker/WorkerNode.cpp:516-542 | over every run the pass ends exactly the first manager in map order whose last renewal lies more than the limit back, with exactly its pods, and nothing for a negative limit |
| Lease.AsWrittenStartsNothing | worker/RPCInterface.cpp:29-37 | with the guard as written a worker that runs nothing never starts anything |
| Exits.ExitIsAnsweredOnce | worker/WorkerNode.cpp:374-411 | one exit of a listed pod: a start with one restart less exactly when restarts are left, a report exactly when none is left and it is a host process |
| Exits.ReportTellsCode | worker/PodDescriptor.h:61-68 | a pod not started again that returned code c is reported with c, one that any signal ended with -1, so with 0 exactly for code 0 |
| Exits.OtherStatusTellsNothing | worker/PodDescriptor.h:61-68 | a stopped process, and the status -1, are reported with 0 |
| Exits.EveryExitIsAnsweredOnce | worker/WorkerNode.cpp:356-418 | a pass does exactly one thing for every queued exit of a listed pod, and nothing else |
| Exits.QueueIsEmptied | worker/WorkerNode.cpp:356-369 | exits join the queue in order, the pass empties it, and no other step touches it |
| Exits.SplitByOwner | worker/WorkerNode.cpp:455-462 | collecting for one manager takes all its reports and leaves every other manager's as they were |
| Exits.ReportsReachTheirOwner | worker/WorkerNode.cpp:356-463 | over every run what was waiting and what was reported for a manager is what was delivered to it and what still waits, in order |
| Exits.RestartsStayWithinBudget | worker/WorkerNode.cpp:384-391 | over every run each alias is restarted only while its last creation's budget lasts, with one less every time |
| Exits.StartsPerCreate | worker/WorkerNode.cpp:384-391 | so a pod created with `restart` r is started once and then at most max(r, 0) times by any run, until its alias is created again |
| Exits.AliasesStayUnique | worker/RPCInterface.cpp:28-37 | with the guard as documented no two listed pods ever share an alias |
| Exits.PassSurvivesIff | worker/WorkerNode.cpp:360-391 | as written the pass survives exactly when every listed pod is among the queued exits and none is started again, and then does what is intended |
| Joint.WhatIsBelievedIsSo | manager/Manager.cpp:35-411 | over every run of creates, stops, checks, exits, restarts, lease ends, other managers' calls and lost replies, restarts finding their executable and no "Manager Down" lost: a pod on the worker's list that the manager holds alive runs there under that alias and owner, or its exit is queued, or its report waits, or the worker holds the lease as ended |
| Joint.StepKeeps | worker/RPCInterface.cpp:10-202 | each step of either side keeps that, with the news possibly on its way in a reply |
| Joint.AnswerFollows | manager/Manager.cpp:598-640 | an answer leaves believed only what was believed before and it does not tell dead, and a pod just created |
| Joint.RequestServes | worker/RPCInterface.cpp:10-202 | serving a request keeps what covers each pod, or the reply tells the manager |
| Joint.WorkerKeeps | worker/WorkerNode.cpp:356-542 | so does everything the worker does on its own or for other managers |
| Joint.StepsAreTheMethods | manager/Manager.cpp:9-110 | the steps of a create are together what the manager's methods are proved to do |
| Joint.CallsElsewhere | manager/Manager.cpp:292-411 | answers of another worker leave this worker's list alone and at most find its pods dead |
| Joint.BeginsElsewhere | manager/Manager.cpp:9-137 | so do the first halves of calls to another worker |
| Joint.LostDownAtOnceIff | manager/Manager.cpp:613-629 | told from before a stop, or a create that gets past the guards, is served to a manager whose lease has ended, its reply lost: the claim stands exactly when every listed live pod has a report waiting |
| Joint.LostDownRun | manager/Manager.cpp:613-616 | a run from an empty manager and worker, two creates, silence and a stop, after which losing the reply makes the claim false |
| Joint.FailedRestartIff | worker/WorkerNode.cpp:384-391 | a restart keeps the claim for its alias exactly when the executable is there or an earlier report waits |
| Joint.ExitIsNoted | manager/Manager.cpp:395-410 | from the exit to the answer of the next CHECK: the manager holds the pod dead, and notes it as down exactly when it did not return 0 |
| Joint.CreatedIsListedIff | manager/Manager.cpp:323-331 | a pod created through the scheduler is on its worker's list exactly when the first answer was not "Manager Down" |
| Joint.CreatePodIsListedIff | manager/Manager.cpp:57-109 | through all retries and the destructor, a pod created by `createPod` is on its worker's list exactly under the documented reading |
| ServiceRetry.GuardWrapsIff | manager/ServiceDescriptor.h:100 | no `int` ends the restart loop exactly when the service already holds more pods than it wants |
| ServiceRetry.RestartBudget | manager/ServiceDescriptor.h:93-118 | the restart loop never exceeds the number wanted, and attempts plus successes end at what was missing or one more |
| ServiceRetry.HalfIsStarted | manager/ServiceDescriptor.h:100-112 | when all creations succeed it starts half of what is missing, rounded up |
| ServiceRetry.RestartAddsSuccesses | manager/ServiceDescriptor.h:93-118 | the pods that join are those of the attempts that succeeded, in order, behind the pods there were |
| ServiceRetry.ReadyAfterBitLengthCalls | manager/ServiceDescriptor.h:93-118 | halving reaches zero after exactly as many calls as what was missing has binary digits |
| ServiceRetry.CompleteAfterIff | manager/ServiceDescriptor.h:93-118 | repeated calls complete a service exactly from that many on |
| ServiceRetry.ServiceDescriptor.RestartFailedPods | manager/ServiceDescriptor.h:93-118 | the pods after the loop with its unsigned bound, how many were started, and ready exactly when complete |
| ServiceRetry.ServiceDescriptor.StopPodsInService | manager/ServiceDescriptor.h:77-89 | the pods whose stop failed remain, in order; closed when none, hung otherwise |
| ServiceRetry.UnstoppedFailed | manager/ServiceDescriptor.h:77-89 | a stop pass leaves exactly the pods whose stop failed, each as often as before, in order |
| ServiceRetry.EveryServiceIsTried | manager/ServiceManager.cpp:34-52 | whatever fails, the service p places from the front is tried after exactly p ticks |
| ServiceRetry.QueueDrains | manager/ServiceManager.cpp:34-52 | when creations succeed the queue is empty exactly from as many ticks on as all deficits have binary digits together |
| ServiceRetry.ReadyWithin | manager/ServiceManager.cpp:34-52 | so n services are ready within n times the digits of the largest deficit |
| ServiceRetry.ServiceManager.StartFailedPod | manager/ServiceManager.cpp:34-52 | the first service is retried, and leaves when ready or goes to the back |
| ServiceRetry.ServiceManager.ShutdownFailedPod | manager/ServiceManager.cpp:54-69 | the first service is stopped, and removed when closed or goes to the back |
| ServiceRetry.ServiceManager.RemoveService | manager/ServiceManager.cpp:71-84 | the service leaves the map; each list keeps exactly the services of other tokens, each as often as before, in order |
| ServiceRetry.ServiceManager.CreateService | manager/ServiceManager.h:88-108 | the service is filed under its token, and waits exactly when it is short of pods |
| ServiceRetry.ServiceManager.DeleteService | manager/ServiceManager.h:113-130 | all pods are stopped; the service is removed when none is left and joins the list of those to stop otherwise |
| ServiceRetry.StepBooks | manager/ServiceManager.cpp:34-84 | what each step does to how often any service waits in either list; no step touches another service |
| ServiceRetry.ClosedIsNeverTried | manager/ServiceManager.cpp:34-84 | over every run a closed service is in neither list nor the map and no step tries it, until one of its name is created |
| ServiceRetry.ListsAlwaysPoint | manager/ServiceManager.cpp:34-84 | over every run of creates, deletes and ticks no list keeps a pointer to a service that was removed |
| Scheduler.ReturnsIff | manager/Scheduler/Scheduler.h:44-56 | the loop ever returns exactly when the counter is positive and 1 modulo the number of workers and the first worker is alive with the port free |
| Scheduler.FirstCallNeverReturns | manager/Scheduler/Scheduler.h:44-63 | the first call of a new scheduler never returns |
| Scheduler.RoundRobin.GetBestWorker | manager/Scheduler/Scheduler.h:44-56 | the worker returned is alive and has the port free |

## Left out

- Sockets, protobuf, etcd, Redis, MongoDB, nginx, IPVS, log4cxx, `fork`/`exec`, signals: outcomes are parameters.
- Output files and `unused_files`.
- Worker.WorkerNode.CollectExitInformation: omits the start records of `PodStartRecorder`. A worker that came back
  within five seconds of a crash forks the recorded pods of a manager again in that manager's next check
  (worker/recorder/PodStartRecorder.cpp:30-50), reports nothing about them, and goes on with an iterator it erased.
- Worker.WorkerNode.CheckRpc: the same; a check starts no process here.
- `transferPod` and `transferDownPod`, and re-creating a taken alias in the joint property.
- `checkPodsUsingProbe`, whose loop does not advance while a probe is fresh; exits of containers, which the source
  does not report; `removeDownService`, whose test reads a pod already erased.
- `fork()` failing in the joint property; the worker registers such a pod with pid -1 and so does `Worker`.
- Pids reused by the system while a pod with that pid is listed, running or queued.
- Pods on no worker's list after recovery, which does not bind them: the joint property starts from an empty manager.
- `PodExitError`, gossip and JSON views, `getOutFile`, address parsing: easy or library-bound.
- Half-written snapshots that `recover` renames, and half-written log lines: snapshots and lines are complete.
- Numbers and flags the source leaves uninitialised are 0 and false.
- Fair schedules of the log queue: `LogQueue.DestructorReturnsIff` and `LogQueue.PendingIsFlushedIff` say where some
  schedule, and the flusher alone, still get on. The destructor of the lock-free queue. Every load and store is atomic
  and sequentially consistent, the plain fields of nodes and the pending list included.
- Alias numbering in `restartFailedPods`, which can collide: a creation there is an oracle.
- ServiceRetry.ServiceDescriptor.RestartFailedPods: called for a service that holds no more pods than it wants; with
  more, the loop goes on until its `int` overflows (`ServiceRetry.GuardWrapsIff`).
- `generateToken` and the proxies' address pools.
- HttpParser.SplitString: called where it returns; `HttpParser.SplitTerminatesIff` says where that is. The same
  holds for the parsers built on it and for `Scheduler.RoundRobin.GetBestWorker`.
- Joint.WhatIsBelievedIsSo: host pods only, as exits of containers are not reported; a lost "Manager Down" and a
  restart without executable are excluded because the claim is false there (`Joint.LostDownAtOnceIff`,
  `Joint.FailedRestartIff`); a request is served before its caller gives up on it or never.
- Lease.StepKeeps: a container's process that cannot be killed is excluded; `Lease.DockerStopIndexIff` says what
  happens then.
- Every exit is queued: `childExitHandler` reaps one child a SIGCHLD (worker/WorkerNode.h:39-44) and signals
  coalesce, so a process can be dead with no exit queued. "Runs" in the joint property means not seen to exit.
- A log file that cannot be opened at all, which ends the program.
- ServiceRetry.ServiceManager.RemoveService: the source goes on with an iterator it has erased; this is what the
  loops are for.
- Worker.WorkerNode.StopDocker: the source reads the pod's pid and owner after erasing it; the model reads them
  before.
