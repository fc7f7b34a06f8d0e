# Online Accounts: request daemon, UI protocol and click hooks

Ubuntu's Online Accounts lets applications ask for access to a user's web accounts. This project
models the parts of it that keep track of things, and proves what they keep.

* **The request daemon** (`Daemon`, `Service`). Requests come in over D-Bus. Each asks for a
  window; the manager keeps one first-in first-out queue per window and starts only the head of
  each queue. It creates a UI proxy for the head, or, when an existing proxy has registered a
  matching handler, hands the request to that proxy and queues nothing. Completion is re-entrant:
  answering a request emits `completed()`, which takes it out of its queue and starts the next one,
  whose proxy may fail to initialise, which answers that request, and so on.
* **The two processes** (`Proxy`, `Endpoints`). A proxy numbers its requests, keeps them until the
  UI process connects, sends them then, matches replies by number and cancels what is left when it
  is destroyed. The UI process makes a request of each `process` frame and answers it with one
  `finished` or `failed` frame.
* **Framing** (`Search`, `Framing`). Frames travel as a four-byte length and a payload over a byte
  stream that is read in arbitrary chunks. On a pipe the reader first skips noise up to a welcome
  message, forty bytes at a time.
* **The click hooks** (`Text`, `Settings`, `Names`, `Hooks`, `Contents`, `Integrity`, `ClickHook`,
  `XmlHook`). Packages install manifests; a hook turns the JSON settings of a manifest into the XML of libaccounts,
  removes the files, services and accounts of packages that are gone, and rewrites only what has
  changed. `XmlHook` is the older hook, which copies XML files.
* **Beside the daemon** (`Reauthentication`, `Indicator`, `Inactivity`, `Libaccounts`, `Acl`,
  `Loopback`). Replaying failed authentications, the timer that ends the daemon when it is idle,
  storing account changes, the two filters for access control lists, the search for a free port.

## How it is built

`Daemon` says as a function what each slot does to the state of the whole daemon; a step is one
slot with everything it calls back into, followed by the deletions it deferred (`deleteLater`).
`Invariant` states what holds between steps and the small moves steps are made of, `Steps` shows
that every step keeps it, `Runs` and `Outcomes` draw the conclusions for all runs, `Outcomes` those
that concern what clients are told and where requests go (`Growth` is what they need of every part
of a step). A run is a sequence of events and the states they lead through, and `Daemon.Reaches`
says that no assertion has failed up to a state. `Service.RequestDaemon`, `Endpoints.ServiceProxy` and `Endpoints.UiServer` are the objects,
with the fields and loops of the C++ classes and signals as direct calls in the order of
connection; their methods are proved equal to these functions. `Framing.Ipc`, `ClickHook.Hook`,
`XmlHook.Hook`, `Reauthentication.Reauthenticator`, `Indicator.IndicatorService`,
`Inactivity.InactivityTimer` and `Libaccounts.LibaccountsService` do the same for their parts.
`Hooks.SweepEffect` spells out the closed form of the sweep; that the loops of the program reach
this form is `Hooks.SweptOne` and `ClickHook.Hook.RemoveStaleFiles`. `Contents` says the same way what
the files say that `Hooks.WriteFiles` writes, in terms of the JSON of the manifest.

What the program cannot decide is a parameter: `Daemon.World` says what happens when a proxy is
started, `Hooks.World` and `XmlHook.Disk` how writes end and what libaccounts and the file system
know. Statements hold for all of them.

Some of the code's promises hold only under a condition. These are the places:

* A chunk that ends inside a four-byte length loses the bytes of that length that have come
  (`online-accounts-ui/ipc.cpp:112-114`). Deframing inverts framing exactly when no chunk does
  (`Framing.DeframingInvertsFraming`); `Framing.FrameIsLost` is a frame in two chunks that is lost.
* A reply to a request that the daemon has cancelled in the meantime fails the assertion in
  `onDataReady`; no other reply does (`Steps.LateReply`). Cancelling a request leaves such a reply on
  its way exactly when the request has been sent to a UI process that is still there
  (`Runs.CancelClean`), and `Runs.LateReplyHappens` is a run of six events that ends in the assertion.
* A second run of the hook on the same manifests changes nothing exactly when no manifest comes to a
  write in it and each that has left a file leads from its id back to a manifest
  (`Hooks.ConvergesExactly`); for writes that succeed `Hooks.SuccessConvergesExactly` says when, of
  the input alone. Alone in its directory what was written lasts exactly when the id has three
  components (`Hooks.LastsIfThreeParts`); `Hooks.TwoPartsDoNotLast` is a manifest whose files are
  taken away again.
* The older hook converges, when its writes succeed, exactly when valid files with one short id have
  one modification time and the profile that each new copy shows leads back to a hook file
  (`XmlHook.ConvergesExactly`); two versions that differ in time are both copied in every run
  (`XmlHook.VersionsTakeTurns`; from the empty store, `XmlHook.BothVersionsAreCopiedAgain`), and a
  provider file costs its users their accounts exactly when the profile that it shows does not lead
  back (`XmlHook.ForeignProfileDeletesAccounts`; `XmlHook.AccountIsDeleted` is such a file).
* With three-component ids, every service id that an application file of ours lists has its service
  file exactly when no write that fails after opening its file takes away the file of a listed
  service (`Integrity.IntegrityExactly`, `Integrity.IntegrityOverRuns`); `Integrity.IntegrityIsLost`
  is an installation and an upgrade that lose one.
* The two filters for access control lists agree exactly for profiles of three components
  (`Acl.AgreeExactlyOnClickProfiles`), and behind the guard of `AclUpdater::removeApp`, which lets no
  id without an underscore through, exactly for these and the empty one
  (`Acl.RemoveAppAgreesExactly`).
* `finished` of a reauthenticator is emitted twice when its last session answers on the spot and
  nothing is left to wait for (`Reauthentication.FinishedOnce`). The first signal takes the
  reauthenticator out of the map, so the second finds no account.
* The assertion in `onReauthenticatorFinished` fails exactly at such a second signal and at a signal
  of account 0, which stands for "not found" (`Indicator.AbortsExactly`,
  `Indicator.QueueAbortsExactly`); runs without either never fail it (`Indicator.NeverAborts`).
  `Indicator.AbortHappens` and `Indicator.SecondSignalAborts` are a run for each.

## Model

| member | source | states |
|---|---|---|
| Framing.LengthRoundTrip | online-accounts-ui/ipc.cpp:175-182 | a length below 2^31 is read back as it was written; the bytes are its digits to the base 256, the lowest first |
| Framing.HeaderRoundTrip | online-accounts-ui/ipc.cpp:109-119 | four bytes are the header of the length they are read as exactly when the last is below 128, any other header is negative |
| Framing.DrainRests | online-accounts-ui/ipc.cpp:100-128 | after each signal the reader has consumed its channel, but for the bytes in which the welcome message may still begin |
| Framing.DrainAppend | online-accounts-ui/ipc.cpp:100-128 | reading twice is reading once if the first read loses no header bytes |
| Framing.ChunkingInvariance | online-accounts-ui/ipc.cpp:100-128 | two chunks are worth their concatenation, whatever the second is, if and only if the first does not end inside a length header |
| Framing.FeedWhole | online-accounts-ui/ipc.cpp:100-128 | the state after any number of chunks, none ending inside a header, depends only on the whole stream |
| Framing.LostExactlyAtCuts | online-accounts-ui/ipc.cpp:112-114 | bytes are lost exactly when the stream is cut inside a length header of a frame |
| Framing.DeframingInvertsFraming | online-accounts-ui/ipc.cpp:100-128 | for all payloads and chunkings, exactly the payloads are emitted, in order, if and only if no chunk ends inside a length header |
| Framing.CutChunkingFails | online-accounts-ui/ipc.cpp:112-114 | every chunking with a cut inside a header fails to deliver the payloads |
| Framing.FrameIsLost | online-accounts-ui/ipc.cpp:112-114 | a concrete frame in two chunks of which nothing is emitted |
| Framing.ScannerAgrees | online-accounts-ui/ipc.cpp:130-157 | across any chunking the scanner finds the welcome message exactly when the whole stream has it, in the chunk that completes its first occurrence, having consumed the stream up to the end of that occurrence |
| Framing.WelcomeFound | online-accounts-ui/ipc.cpp:130-157 | the bytes after the first occurrence are handed to the frame reader, none is dropped |
| Search.SkipAppend | online-accounts-ui/ipc.cpp:130-157 | searching on after more bytes have come, without the bytes dropped so far, is searching the whole |
| Framing.Ipc.SetChannels | online-accounts-ui/ipc.cpp:72-98 | files wait for and are sent the welcome message, sockets are not; what is available is read |
| Framing.Ipc.OnReadyRead | online-accounts-ui/ipc.cpp:100-128 | the loop does what one drain of the channel is specified to do |
| Framing.Ipc.WaitWelcomeMessage | online-accounts-ui/ipc.cpp:130-157 | the forty-byte window finds the first occurrence of the message and drops nothing in which it could begin |
| Framing.Ipc.Write | online-accounts-ui/ipc.cpp:175-182 | one frame is appended: the length and the payload |
| Proxy.HandleRequestKeeps | online-accounts-service/ui-proxy.cpp:393-411 | a request gets the next id, is kept, and is in one place on the wire if there is a connection; all other ids keep their places |
| Proxy.ConnectionSendsPending | online-accounts-service/ui-proxy.cpp:151-176 | on connection exactly the pending requests are sent, in the order of their ids, with their parameters |
| Proxy.ConnectionKeeps | online-accounts-service/ui-proxy.cpp:151-176 | connecting keeps the proxy valid and changes nothing but the connection |
| Proxy.OnRequestCompletedKeeps | online-accounts-service/ui-proxy.cpp:357-368 | the request that is completed, and no other, leaves the map, and the delay timer runs |
| Proxy.PopReplyKeeps | online-accounts-service/ui-proxy.cpp:178-203 | a reply taken from the channel was in one place and is then in none; if its request is pending it answers that request's parameters |
| Proxy.DisconnectKeeps | online-accounts-service/ui-proxy.cpp:142-149 | a proxy stays valid when its connection goes |
| Proxy.UiDoSteps | online-accounts-ui/ui-server.cpp:97-160 | nothing the UI process does loses an id, duplicates one, or mixes up parameters |
| Proxy.UiCompletedSteps | online-accounts-ui/ui-server.cpp:135-160 | completion takes the id out of the live requests and appends one frame that answers it, finished or failed as the request ended, and nothing else; every id keeps its count of places; once more it does nothing |
| Proxy.UiReceiveBuilds | online-accounts-ui/ui-server.cpp:97-133 | the next frame becomes a request in progress with its id and its parameters, and changes no other |
| Proxy.UiFailSteps | online-accounts-ui/request.cpp:268-278 | failing a live request sends one frame with its id, this name, this message and its parameters (a finished one if the name is empty); failing another sends nothing; every id keeps its count of places |
| Proxy.UiSetCanceledSteps | online-accounts-ui/request.cpp:280-287 | cancelling a live request in progress sends the failure UserCanceled with its id and parameters; otherwise nothing is sent |
| Proxy.UiSetDelaySteps | online-accounts-ui/request.cpp:241-245 | the delay is kept for the answer, nothing is sent |
| Proxy.UiSetResultSteps | online-accounts-ui/request.cpp:289-299 | giving a live request in progress its result sends one frame with its id, this result, its delay and its parameters; otherwise nothing is sent; every id keeps its count of places |
| Steps.RunQueueInv | online-accounts-service/request-manager.cpp:110-135 | starting the head of a queue, through any number of proxies that fail to initialise, keeps the invariant and disturbs no other proxy |
| Steps.RetiredInv | online-accounts-service/request-manager.cpp:137-162 | taking an answered head out of its queue and going on with the rest keeps the invariant |
| Steps.CompleteHeld | online-accounts-service/request.cpp:230-240 | answering a request that a proxy holds, with all that its signal sets off, keeps the invariant |
| Steps.CancelHeld | online-accounts-service/request.cpp:221-228 | cancelling a held request removes it from its proxy and changes no other proxy |
| Steps.CancelAllInv | online-accounts-service/ui-proxy.cpp:112-124 | the destructor's loop over a changing map leaves the proxy with no request |
| Steps.DestroyInv | online-accounts-service/ui-proxy.cpp:112-124 | destroying a proxy keeps the invariant and every other proxy |
| Steps.EnqueueInv | online-accounts-service/request-manager.cpp:82-108 | a request that comes in, routed or queued, keeps the invariant |
| Steps.DataReadyInv | online-accounts-service/ui-proxy.cpp:178-203 | a frame from the UI process that finds its request keeps the invariant |
| Steps.StepSettles | online-accounts-service/request-manager.cpp:82-170 | every step from a settled state that brings no late reply ends in a settled state |
| Steps.LateReply | online-accounts-service/ui-proxy.cpp:187-197 | the assertions fail for a reply if and only if the daemon has cancelled the request it answers |
| Steps.FoundIsNotCanceled | online-accounts-service/ui-proxy.cpp:187-197 | a reply that is found answers the very request whose parameters produced it |
| Daemon.RunExists | online-accounts-service/request-manager.cpp:82-170 | whatever the world and the events, there is a run |
| Runs.RunSettled | online-accounts-service/request-manager.cpp:82-170 | the invariant holds in every state that a run reaches without a failed assertion |
| Runs.Partition | online-accounts-service/request-manager.cpp:82-162 | each unanswered request waits behind the head of its own queue, or leads its queue and is held by exactly one proxy, or is in no queue and held by exactly one proxy; each answered one is nowhere |
| Runs.OnlyHeadsInProgress | online-accounts-service/request-manager.cpp:110-135 | in each stored queue the head and nothing else is in progress |
| Runs.NoEmptyQueue | online-accounts-service/request-manager.cpp:152-157 | no empty queue is stored |
| Runs.OnlyHeadsReport | online-accounts-service/request-manager.cpp:145-148 | the branch for a completed request that is not first in its queue is never taken in any run, nested completions included |
| Runs.FirstHandlerIsFirst | online-accounts-service/request-manager.cpp:86-94 | the search gives the first proxy that has a handler, and none if there is none; Outcomes.Routing says which proxies have one |
| Runs.RepliesInOrder | online-accounts-service/request-manager.cpp:137-162 | the replies to a window's queued requests are a prefix of their order of arrival, and the rest is the queue |
| Runs.AtMostOneReply | online-accounts-service/request.cpp:207-240 | no request is answered twice |
| Runs.CancelWaiting | online-accounts-service/request.cpp:221-228 | cancelling a request that waits in its queue changes nothing |
| Runs.IdleIsSeen | online-accounts-service/request-manager.cpp:96-105 | between events the last notification told the truth about isIdle |
| Runs.Conservation | online-accounts-service/ui-proxy.cpp:151-203 | while a UI process is connected each pending id is in exactly one place on the way there and back; ids are sent at most once, in increasing order |
| Runs.OneReplyForEachId | online-accounts-ui/ui-server.cpp:135-160 | no two events of a run bring a reply to the same id of the same proxy |
| Runs.RepliesFindTheirRequests | online-accounts-service/ui-proxy.cpp:187-197 | in every run in which clients cancel no request that was sent to a UI process which is still there, every reply finds its request |
| Runs.CancelClean | online-accounts-service/ui-proxy.cpp:357-368 | when all that is on the wires belongs to pending requests, it still does after a cancellation if and only if no connected proxy held the request |
| Runs.LateReplyHappens | online-accounts-service/ui-proxy.cpp:187-197 | a run of six events whose last one fails the assertion |
| Runs.RunQueueEffect | online-accounts-service/request-manager.cpp:110-162 | when the next k proxies fail to initialise, exactly the first k requests of the queue are answered, in order, with one error each; the next is handed to a proxy, the rest of the queue and all other queues stay |
| Runs.DestructorCancelsEach | online-accounts-service/ui-proxy.cpp:112-124 | the destructor cancels each pending request exactly once, in the order of the ids, and no other |
| Outcomes.ClientIsTold | online-accounts-service/ui-proxy.cpp:187-197 | in every run, when the UI process answers a request and no assertion fails, the next reply goes to that request and has the data, or the error name and message, of the frame; all further replies of the step are failures of the daemon itself |
| Outcomes.CancelIsTold | online-accounts-service/request.cpp:221-228 | in every run a request in progress that its client cancels is answered with UserCanceled |
| Outcomes.RepliesSayWhatCame | online-accounts-service/request.cpp:207-240 | every reply ever sent is one of the daemon's two own failures or says what a frame said that came from the UI process for that very request |
| Outcomes.UserIsHeard | online-accounts-ui/ui-server.cpp:135-160 | what the user answers in the UI process is what the client of the request with the same parameters is told when that answer comes in, whatever happened in between |
| Outcomes.Routing | online-accounts-service/request-manager.cpp:82-108 | a call is routed to a proxy if and only if an earlier frame from that proxy's UI process registered the handler that the call's client data names, and none did for a proxy before it in the list; any other call is queued for its window |
| Outcomes.HandlersAreRegistered | online-accounts-service/ui-proxy.cpp:198-199 | the handlers of a proxy are those that its UI process has registered, in order, and no others |
| Outcomes.PendingProxyLeaves | online-accounts-service/ui-proxy.cpp:142-149 | in every run a proxy with pending requests leaves the manager's list exactly when its prompt session ends, or its connection is closed while no delay timer runs; never by the timer or by another proxy's events |
| Outcomes.ProxyLeaves | online-accounts-service/ui-proxy.cpp:348-355 | in every run a proxy leaves the manager's list exactly when its prompt session ends, its connection is closed while no delay timer runs, or its timer fires and it has no pending requests; it is deleted in that step and not before |
| Outcomes.ProxiesAreStarted | online-accounts-service/ui-proxy.cpp:291-334 | in every run each proxy is connected and ready, or loading and listening, or in error, and it listens then exactly if there is a socket to listen on |
| Runs.TimerSparesPending | online-accounts-service/ui-proxy.cpp:348-355 | the delay timer does nothing else to a proxy that has pending requests, and answers nobody |
| Service.RequestDaemon.RunQueue | online-accounts-service/request-manager.cpp:110-135 | the recursive method terminates and does what the function says |
| Service.RequestDaemon.OnRequestCompleted | online-accounts-service/request-manager.cpp:137-162 | dequeues, deletes later, runs the rest of the queue, and notifies when idle |
| Service.RequestDaemon.Enqueue | online-accounts-service/request-manager.cpp:82-108 | the search for a handler, else the queue: the step of which Outcomes.Routing says where the request goes |
| Service.RequestDaemon.EmitCompleted | online-accounts-service/request.cpp:212-219 | the slots of the signal run in the order of their connection |
| Service.RequestDaemon.SetResult | online-accounts-service/request.cpp:230-240 | the reply is sent only for a request in progress, which is not in progress afterwards |
| Service.RequestDaemon.SetCanceled | online-accounts-service/request.cpp:221-228 | only a request in progress is failed as cancelled |
| Service.RequestDaemon.OnDataReady | online-accounts-service/ui-proxy.cpp:178-203 | the three kinds of frames: the step of which Outcomes.ClientIsTold says what the client is told |
| Service.RequestDaemon.DestroyProxy | online-accounts-service/ui-proxy.cpp:112-124 | the loop of cancellations, then the proxy is gone |
| Service.RequestDaemon.Dispatch | online-accounts-service/request-manager.cpp:82-170 | one event and the deferred deletions; the object is settled again unless an assertion failed |
| Endpoints.ServiceProxy.HandleRequest | online-accounts-service/ui-proxy.cpp:393-411 | numbers the request, keeps it, and sends it or starts the process as the status asks |
| Endpoints.ServiceProxy.StartProcess | online-accounts-service/ui-proxy.cpp:291-334 | the status after each way in which starting can end |
| Endpoints.ServiceProxy.OnNewConnection | online-accounts-service/ui-proxy.cpp:151-176 | the first connection wins; the loop sends what is pending |
| Endpoints.ServiceProxy.OnRequestCompleted | online-accounts-service/ui-proxy.cpp:357-368 | the search for the id by request, and its removal |
| Endpoints.UiServer.OnDataReady | online-accounts-ui/ui-server.cpp:97-133 | a request is made, connected and started |
| Endpoints.UiServer.OnRequestCompleted | online-accounts-ui/ui-server.cpp:135-160 | one answer, finished or failed, and the request is disconnected |
| Endpoints.UiServer.SetCanceled | online-accounts-ui/request.cpp:280-287 | only a request in progress is failed, as UiSetCanceledSteps says |
| Endpoints.UiServer.SetResult | online-accounts-ui/request.cpp:289-299 | only a request in progress gets its result |
| Text.JoinSplit | click-hooks/accounts.cpp:394-396 | the parts of a key, joined by slashes, are the key |
| Settings.AddSettings | click-hooks/accounts.cpp:389-440 | the loops append to the existing children exactly the translation of the object, of which TranslationMeaning says what it means |
| Settings.TranslationMeaning | click-hooks/accounts.cpp:389-440 | the leaves of the XML tree are the bindings of the JSON object, in order: true and false with type b, strings as they are, arrays of strings with type as, quoted, comma-separated, in brackets; empty strings and unsupported types have none |
| Settings.AddSettingsMeaning | click-hooks/accounts.cpp:389-440 | existing leaves stay a prefix, and the leaves after them are the bindings of the object |
| Settings.ReadBack | click-hooks/accounts.cpp:403-427 | a reader of type and text gives back the boolean, the string, or the array of its strings, if these hold no quotes |
| Settings.SlashIsNesting | click-hooks/accounts.cpp:389-401 | among any other members, a key "a/b" and a nested object give the same leaves, in whatever order the members of the second object are visited |
| Settings.AddTemplate | click-hooks/accounts.cpp:337-374 | the auth section, when there is one, and then the settings |
| Settings.TemplateMeaning | click-hooks/accounts.cpp:337-374 | the leaves of a template: method, mechanism and settings for each auth key of the form method/mechanism, then the settings, each with the type and text of its JSON value |
| Settings.ValueOfKey | click-hooks/accounts.cpp:145-150 | what is read at a key is the value of that key if it has the right type, and empty otherwise |
| Contents.WrittenFilesTell | click-hooks/accounts.cpp:157-207 | when a manifest is written completely, the template of each service's file (the last with its id) has exactly the auth and settings bindings of that service's JSON, that of the provider file those of the plugin, the application file lists the services in order, and no other file changes |
| Contents.CompletedTells | click-hooks/accounts.cpp:693-719 | when a manifest gets its stamp its files say this |
| Contents.PluginIsWritten | click-hooks/accounts.cpp:244-275 | the write of the provider file is attempted if and only if the plugin has its QML file, link, name and icon; written, it says what the plugin says |
| Contents.LeftAloneExactly | click-hooks/accounts.cpp:693-719 | a manifest is left alone if and only if its stamp has exactly its time or it has nothing that can be written |
| Names.OwnHookMatches | click-hooks/accounts.cpp:600-602 | the pattern made of an application id matches that application's own hook file if and only if the id has three components |
| Names.WildFramed | click-hooks/accounts.cpp:600-602 | what a pattern with one star matches |
| Names.WildMeaning | click-hooks/accounts.cpp:600-602 | a star is any text, a question mark any one character, any other character itself in either case |
| Names.StripVersionMeaning | click-hooks/accounts.cpp:78-91 | of three components the first two stay, joined; any other id stays as it is |
| Hooks.SweptOne | click-hooks/accounts.cpp:588-613 | the removals at one more file are those of the closed form |
| Hooks.SweepEffect | click-hooks/accounts.cpp:537-616 | the files that survive are those of others and those for which a manifest's name matches the pattern made of their profile; accounts go exactly with their provider's file; an account loses exactly the services whose file goes, if it is enabled and the service is its provider's |
| Hooks.RevokedExactly | click-hooks/accounts.cpp:548-557 | an application is taken off the access list of a credential exactly for its removed services that were enabled for that account |
| Hooks.SweepNothing | click-hooks/accounts.cpp:573-616 | the sweep changes nothing exactly when each of our files has a manifest, and after a sweep it does |
| Hooks.RunsConverge | click-hooks/accounts.cpp:682-722 | with three-component ids free of wildcards, a second run changes nothing if and only if no manifest comes to a write in it, as when each is invalid or written |
| Hooks.NothingToDo | click-hooks/accounts.cpp:682-722 | for any store and world, a run changes nothing if and only if each of our files and each stamp has a manifest and no manifest comes to a write |
| Hooks.SecondRun | click-hooks/accounts.cpp:682-722 | a second run changes nothing if and only if each of our files has a manifest and no manifest comes to a write |
| Hooks.ConvergesExactly | click-hooks/accounts.cpp:682-722 | for any store, manifests and worlds of two runs, the second changes nothing if and only if no manifest comes to a write in it and each that has left a file leads from its id back to a manifest |
| Hooks.SuccessConvergesExactly | click-hooks/accounts.cpp:682-722 | when writes succeed: if and only if each manifest that was due leads back to a manifest, or has nothing but a plugin that could not be written and cannot be now |
| Hooks.CompleteConvergesExactly | click-hooks/accounts.cpp:682-722 | when the first run completes each manifest, whatever fails later: if and only if each manifest that was due leads back to a manifest |
| Hooks.LastsIfThreeParts | click-hooks/accounts.cpp:78-91 | what is written for a manifest alone in its directory lasts if and only if its id has three components |
| Hooks.TwoPartsDoNotLast | click-hooks/accounts.cpp:78-91 | a manifest with an id of two components, run from the empty store, whose files the second run changes |
| Integrity.ProcessKeepsIntegrity | click-hooks/accounts.cpp:157-207 | writing the files of a manifest keeps every listed service backed by a file, whatever fails to open and whatever the plugin does, unless a failed write takes away the file of a listed service |
| Integrity.SweepKeepsIntegrity | click-hooks/accounts.cpp:573-616 | the sweep takes a service file only with the application files that list it |
| Integrity.IntegrityOverRuns | click-hooks/accounts.cpp:157-207 | over all runs, between any two manifests, every service id that an application file of ours lists has its service file, if and only if no write takes away the file of a listed service |
| Integrity.FailedWriteBreaksIntegrity | click-hooks/accounts.cpp:477-491 | when the write of any of its services fails after opening the file, and that service is listed, the manifest leaves it without a file |
| Integrity.IntegrityExactly | click-hooks/accounts.cpp:157-207 | processing a manifest keeps integrity if and only if no such write happens |
| Integrity.IntegrityWithCarefulWrites | click-hooks/accounts.cpp:477-491 | in runs in which no write fails once its file is open integrity holds, whatever else fails |
| Integrity.IntegrityIsLost | click-hooks/accounts.cpp:477-491 | an installation and an upgrade, from the empty store, after which a listed service has no file |
| ClickHook.Hook.DisableService | click-hooks/accounts.cpp:537-559 | the service is disabled, and the application taken off the access list, exactly for the enabled accounts of the service's provider |
| ClickHook.Hook.RemoveStaleAccounts | click-hooks/accounts.cpp:561-571 | exactly the accounts of the provider are deleted |
| ClickHook.Hook.RemoveStaleFiles | click-hooks/accounts.cpp:573-616 | the nested loops over types and files have the effect of the closed form |
| ClickHook.Hook.RemoveStaleTimestampFiles | click-hooks/accounts.cpp:618-630 | exactly the stamps without a manifest go |
| ClickHook.Hook.WritePlugin | click-hooks/accounts.cpp:244-275 | the conditions under which a provider file is written |
| ClickHook.Hook.WriteFiles | click-hooks/accounts.cpp:157-207 | the services up to the first failure, the plugin, and the application file if all went well |
| ClickHook.Hook.Run | click-hooks/accounts.cpp:682-722 | one run of the program |
| XmlHook.SweptOne | click-hooks/main.cpp:283-314 | the removals at one more file are those of the closed form |
| XmlHook.RunsConverge | click-hooks/main.cpp:347-387 | with proper ids, one modification time for valid files with one target, no profile of the files' own and successful writes, a second run changes nothing |
| XmlHook.NothingToDo | click-hooks/main.cpp:347-387 | for any store and disk, a run changes nothing if and only if each of our files has a hook file and each hook file is invalid or copied |
| XmlHook.CompleteExactly | click-hooks/main.cpp:363-367 | with successful writes all files are up to date after a run if and only if valid files with one target have one modification time |
| XmlHook.RunCopies | click-hooks/main.cpp:345-387 | with successful writes the first valid file of each target is copied, unless the copy there has its time; the copy is ours, with the file's own profile or else the id, and the file's time |
| XmlHook.SweepLeaves | click-hooks/main.cpp:276-315 | the files that survive the sweep are those of others and those whose profile leads to a hook file |
| XmlHook.ConvergesExactly | click-hooks/main.cpp:347-387 | for any directory and store, with successful writes, a second run changes nothing if and only if valid files with one target have one time and each new copy's profile leads back to a hook file |
| XmlHook.LastsIfProfileMatches | click-hooks/main.cpp:302-304 | the copy of a file alone in its directory lasts if and only if the pattern of the profile it shows matches its hook file |
| XmlHook.AccountsSurvive | click-hooks/main.cpp:306-311 | for any directory, a run keeps an account if and only if its provider has no file of ours or a hook file's name matches the pattern made of the profile that file shows |
| XmlHook.ForeignProfileDeletesAccounts | click-hooks/main.cpp:306-311 | the users of a provider file alone in its directory keep their accounts if and only if the profile it shows leads back to it |
| XmlHook.AccountIsDeleted | click-hooks/main.cpp:306-311 | a provider file, run twice, whose user's account is gone |
| XmlHook.VersionsTakeTurns | click-hooks/main.cpp:363-367 | two versions with one short id are both copied in every run, an instance of the condition of ConvergesExactly |
| XmlHook.BothVersionsAreCopiedAgain | click-hooks/main.cpp:363-367 | two versions, run from the empty store, both copied and then both copied again |
| XmlHook.Hook.RemoveStaleFiles | click-hooks/main.cpp:276-315 | the loop has the effect of the closed form |
| XmlHook.Hook.WriteFile | click-hooks/main.cpp:218-244 | a copy with the profile and modification time of the hook file, or none |
| XmlHook.Hook.Run | click-hooks/main.cpp:345-387 | one run of the program |
| Reauthentication.FinishedOnce | online-accounts-service/reauthenticator.cpp:80-138 | for any sessions and outcomes `finished` is emitted once, true if and only if nothing failed; twice exactly when the last session answers on the spot and nothing is left to wait for |
| Reauthentication.NotFinishedEarly | online-accounts-service/reauthenticator.cpp:115-121 | nothing is emitted while an outcome is missing |
| Reauthentication.Reauthenticator.Start | online-accounts-service/reauthenticator.cpp:80-113 | the loop over the stored authentications and the final check |
| Indicator.StepKeeps | online-accounts-service/indicator-service.cpp:112-286 | every step keeps the invariant or fails the assertion, whatever the sessions do when they are started |
| Indicator.StoredIsReported | online-accounts-service/indicator-service.cpp:130-163 | in every run the authentications stored for an account are those reported for it, in order, since it was last reauthenticated with success |
| Indicator.FailuresAreMarked | online-accounts-service/indicator-service.cpp:112-163 | a report marks the account as failed, a removal takes back exactly the marks of the accounts it names, clearing the error keeps the marks |
| Indicator.AbortsExactly | online-accounts-service/indicator-service.cpp:248-268 | in every run the assertion fails exactly when a signal is delivered that is of account 0 or of a reauthenticator that has finished already, which is one whose last session answered on the spot with nothing left to wait for |
| Indicator.QueueAbortsExactly | online-accounts-service/indicator-service.cpp:193-196 | delivering all queued signals fails the assertion if and only if one of them is of account 0 or of such a reauthenticator |
| Indicator.NeverAborts | online-accounts-service/indicator-service.cpp:165-201 | runs that replay neither account 0 nor such sessions never fail the assertion |
| Indicator.AbortHappens | online-accounts-service/indicator-service.cpp:257-268 | a run of three events for account 0 that fails it |
| Indicator.SecondSignalAborts | online-accounts-service/indicator-service.cpp:257-285 | a run for account 5 whose second signal fails it |
| Indicator.ActiveAccounts | online-accounts-service/indicator-service.cpp:165-201 | accounts under reauthentication have stored data, one reauthenticator each; each request is answered once or under way; isIdle was notified truthfully |
| Indicator.DeliverEffect | online-accounts-service/indicator-service.cpp:248-286 | a delivery that does not fail: the reply says whether all sessions succeeded; success clears exactly that account, failure nothing |
| Indicator.SignalsFindTheirAccount | online-accounts-service/indicator-service.cpp:255-268 | each queued signal of a reauthenticator that has not finished finds its account; any other is the second of two and finds none |
| Indicator.IndicatorService.ReportFailure | online-accounts-service/indicator-service.cpp:130-163 | records the failure and its data, and notifies if it was idle |
| Indicator.IndicatorService.ReauthenticateAccount | online-accounts-service/indicator-service.cpp:165-201 | refuses unknown and active accounts, else starts a reauthenticator |
| Indicator.IndicatorService.OnReauthenticatorFinished | online-accounts-service/indicator-service.cpp:248-286 | the search for the account in the order of the map and what follows it, also when none is found |
| Inactivity.ActiveWhileIdle | online-accounts-service/inactivity-timer.cpp:36-52 | between events the timer runs exactly while all watched objects are idle, until it fires |
| Inactivity.TimeoutOnlyWhenIdle | online-accounts-service/inactivity-timer.cpp:54-60 | when the timer fires no window queue exists and no failure is recorded, and `timeout` is emitted |
| Inactivity.WatchAll | online-accounts-service/main.cpp:117-125 | watching the three objects gives the timer of the system in its first state |
| Inactivity.Dispatch | online-accounts-service/inactivity-timer.cpp:45-60 | whatever happens, the timer object goes on as the timer of the system does, for which the two statements above are proved |
| Inactivity.InactivityTimer.WatchObject | online-accounts-service/inactivity-timer.cpp:36-43 | an object is watched and looked at |
| Inactivity.InactivityTimer.OnTimeout | online-accounts-service/inactivity-timer.cpp:54-60 | `timeout` is emitted if and only if all is idle |
| Inactivity.InactivityTimer.AllObjectsAreIdle | online-accounts-service/inactivity-timer.cpp:62-70 | true if and only if each watched object is idle |
| Libaccounts.LibaccountsService.ApplyChanges | online-accounts-service/libaccounts-service.cpp:122-146 | every value ends as the last change that touches it says |
| Libaccounts.LastWriterWins | online-accounts-service/libaccounts-service.cpp:122-146 | the last change that names a key of the account (service "global") or of a known service decides what is read there; removal beats setting |
| Libaccounts.OthersStay | online-accounts-service/libaccounts-service.cpp:122-146 | a value that no change names, or only changes of unknown services, stays |
| Libaccounts.LastEffectIsLast | online-accounts-service/libaccounts-service.cpp:122-146 | the effect is that of one change after which none touches the value, or no change touches it |
| Libaccounts.EachMessageOnce | online-accounts-service/libaccounts-service.cpp:148-189 | each registered message is answered once, waits, or was replaced |
| Libaccounts.OutcomesAreTheirs | online-accounts-service/libaccounts-service.cpp:148-189 | each client is told the outcome of storing the very account object that it asked for |
| Libaccounts.NothingReplaced | online-accounts-service/libaccounts-service.cpp:148-149 | no message is replaced if and only if no account object is stored again while it waits |
| Acl.RemoveApplicationFromAcl | plugins/OnlineAccountsPlugin/application-manager.cpp:256-278 | the loop of the application manager's filter |
| Acl.OnInfo | click-hooks/acl-updater.cpp:52-72 | the updater's filter; the list is stored if and only if some token begins with the id |
| Acl.AgreeExactlyOnClickProfiles | click-hooks/acl-updater.cpp:52-72 | the filters agree on all lists if and only if the profile has three components |
| Acl.RemoveAppAgreesExactly | click-hooks/acl-updater.cpp:96-101 | with the guard of removeApp the hook and the application manager agree on all lists if and only if the profile has three components or is empty |
| Acl.UpdateIsSublist | click-hooks/acl-updater.cpp:57-61 | the result keeps the order and exactly the tokens that do not begin with the id |
| Acl.RemoveIsSublist | plugins/OnlineAccountsPlugin/application-manager.cpp:256-278 | the application manager's result keeps the order; of a profile of three components the tokens that begin with its stripped id go, of any other only the profile itself, and of an empty one none |
| Acl.AddGivesAccess | plugins/OnlineAccountsPlugin/application-manager.cpp:241-254 | adding puts the profile at the end and changes nothing else; an empty one is not added |
| Acl.Idempotent | plugins/OnlineAccountsPlugin/application-manager.cpp:256-278 | filtering twice is filtering once |
| Acl.RemoveUndoesAdd | plugins/OnlineAccountsPlugin/application-manager.cpp:241-278 | removing takes back adding |
| Acl.RemovesLikeNamed | plugins/OnlineAccountsPlugin/application-manager.cpp:269-275 | a token goes exactly when it begins with the stripped id, also that of an application merely named alike |
| Loopback.Listen | plugins/OnlineAccountsPlugin/loopback-server.cpp:78-89 | counting up from the port, from 65535 on to 0, the first free port at most max(increments, 0) steps away is bound, and none if there is none; the loop is without end if and only if no port at all is free and more increments are allowed than there are ports |

## Left out

- D-Bus, processes, sockets and QDataStream: frames are values in a first-in first-out channel, several frames in one read are several events.
- Negative frame lengths: `onReadyRead` never returns then; the model has the flag `spinning` for it and says no more.
- Integer widths: request ids and window ids are unbounded; the wrap-around of the id counter after 2^31 requests is not modelled.
- The choice of `Request::find` (request.cpp:109-118): the cancel event may name any request that is alive.
- Request parameters other than the window id and the client data, client process ids, provider ids, AppArmor profiles, Mir prompt sessions: a parameter decides whether a proxy initialises and how starting its process ends.
- The delay of a request: the timer of a proxy is active or not and may fire at any time while it is.
- Frames with an unknown operation code, which are only logged.
- Service.RequestDaemon: keeps requests and proxies in tables by number; that proxies are objects of their own is shown by Endpoints only.
- Libaccounts.LibaccountsService.ApplyChanges: does not create, delete or load the account, and does not give an empty removed key the meaning that libaccounts may give it.
- Liveness: a proxy whose process failed to start, or whose connection went while its delay timer ran, keeps its requests; nothing is claimed about when replies come.
- Which client gets the reply when several reauthentications run: there is one slot for the client's message.
- QML views, browser, dialogs, notifications, translations, access model, client library, cookies and root directories.
- XML and JSON text, and the parts of the XML files other than creator mark, profile, listed services and template (names, icons, descriptions, package directories, desktop entries).
- Wildcard sets in square brackets and Unicode case folding in name patterns; other files in the hook directories; the symbolic links of plugins, which are never removed.
- Service ids of applications whose id contains a `%` followed by a digit, which `QString::arg` would replace.
- Writing back access control lists during the sweep: the model records the calls of `AclUpdater::removeApp`, its guard and its filter are in `Acl`; credentials that are 0 or unknown are refused there and not modelled.
- Loopback.Listen: says which port is asked for; when that is 0 the system chooses a free port, and which one is not modelled.
- The HTTP side of the loopback server.
