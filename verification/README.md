# Verified model of the norupo reverse tunnel

norupo is a reverse tunnel. A public edge accepts HTTP requests and multiplexes them, as streams with
credit-based flow control, over one long-lived session to an agent, which serves them from a local
service. Edges find the session that owns a host name in a shared routing table of leases.

The project models three parts and proves what they promise.

**Streams.** `Edge` and `Agent` are the two halves of the stream protocol as step functions: every
step is one section of the program between two awaits or two atomics, and a list of steps is an
interleaving of any number of streams and tasks. `Tunnel` joins them by two FIFOs. Each direction of
a stream is a lane (`Flow`): the sending task, its semaphore, the frames underway, the receiver's
channel and the credit coming back. Whatever happens to a lane keeps its invariant; uploads and
downloads are both lanes. `SessionObject` and `AgentObject` hold the two session objects as classes
that update their tables in place. Their calls are shown to perform sequences of the steps that the
theorems interleave, in every branch: opening, uploading, resetting, delivering, granting, tearing
down at the edge; handling a frame, sending a payload, ending a stream at the agent. The one
exception is an upload call with an empty payload, which the ingress never makes
(`ingress.rs:306`): its contract says that one empty frame is queued, and the steps have none.

**Leases.** `Lease` is the table of leases as it ought to be, with entries gone exactly when they
expire; `MemoryRegistry` (with the class) and `RedisRegistry` (scripts over encoded strings) are shown
to give its answers over every history. `Control` is the machine of sessions, heartbeats, teardowns
and ingresses around it, with registry calls that may fail with or without taking effect;
`ControlStore` is the same machine over the scripts, and `ControlPlane` holds the handlers as methods.

**Keys.** `Routing` and `Registration` canonicalise host names and decide who may register what.

What the code does has been followed where its comments or tests say something else:

- The repository treats the concurrent-stream limit as a ceiling (session.rs:101-103). Check and count are separate atomics, so the
  table can hold `limit + k - 1` streams when `k` tasks open streams together; that bound is proved
  and proved to be reached.
- Nothing makes the window at least one chunk. Below that an upload can wait forever; this is
  proved to happen exactly then.
- `normalize_host` of `"a ."` is `"a "`, which is not its own canonical form; and under a base domain
  with a colon in its key (an IPv6 literal) no registered subdomain can ever be looked up.
- A wildcard entry of an account is compared with its case; one with an upper-case letter covers nothing.
- Re-claiming is said to make reconnects idempotent (registry.rs:104-105). A reconnecting agent has a
  new session id, so its claim is refused: `Lease.ReconnectIsRefused` gives two ids and one key, refused
  one second before the deadline and acquired at it, and `Lease.ReconnectWaits` says the same of any two
  sessions: refused if and only if the first one's deadline is still to come. Over whole histories a
  claim is acquired exactly when no other session holds the key (`Lease.AcquiringExcludes`,
  `Lease.RefusalNamesHolder`, `Lease.HolderIsSeen`).
- A session may register a key that it holds a second time, and closing that tunnel releases the key of
  both: the first stays listed and cannot be found (`ControlContinuity.TwinTakesKeyAway`, with one port
  in `ControlContinuity.TwinExample`). `ControlContinuity.TunnelStaysUp` says exactly when a tunnel stays
  reachable.
- A handler that is dropped before the response head leaves its entry in the table, until the upload
  task fails, the agent ends, resets or sends data to the stream, or the session ends; if it is dropped
  before its Open was queued, only teardown is left. That is proved exactly, for every run.
- A public body whose stream is closed by teardown, or by the upload task after its client's body has
  failed, ends like a complete one, since a closed channel is the end of the stream (ingress.rs:381-391).
  `EdgeBodies.BodiesCutShort` says exactly when, for every run and any agent, and
  `EdgeBodies.CutBodyExample` is such a run. The same happens to request bodies at the local service
  (agent.rs:333-336): `AgentBodies.RequestBodiesCutShort` and `AgentBodies.CutRequestExample`.
- A heartbeat round renews the tunnels that were listed when it began. If one is closed meanwhile and its
  release fails, the round extends the lease that the close has left behind
  (`ControlContinuity.RoundOutlivesClose`, `ControlContinuity.RoundOutlivesExample`). What can extend a
  lease, and that nothing else does, is `ControlExpiry.OrphansExpire` and `ControlExpiry.QuietSessionsFade`.
- A comment says that no field of a stored record can hold a tab. Inner tabs survive
  canonicalisation, so a wildcard domain lets an account register a key with one; under Redis its
  owner can then neither renew nor release the lease. Which accounts can do so, and what every call
  on such a record answers, is proved exactly.

`dafny verify dfyconfig.toml` checks the project.

## Modules

| modules | of the program |
|---|---|
| Frames, Flow, Runs | frames, chunking, flow control of one direction, runs of a machine |
| Edge, EdgeRuns, EdgeBodies, EdgeReplies, EdgeCounting, SessionSteps, SessionObject | `session.rs`, the stream part of `ingress.rs` and `control.rs` |
| Agent, AgentSteps, AgentObject | `agent.rs` |
| Tunnel, TunnelEdgeSteps, TunnelAgentSteps, TunnelRuns, TunnelTheorems, TunnelRelease, AgentBodies, AgentAnswers | both together |
| Codec, Lease, MemoryRegistry, RedisRegistry | `registry.rs` |
| Control, ControlCalls, ControlRuns, ControlTheorems, ControlExpiry, ControlContinuity, ControlTabs, ControlStore, ControlPlane | `control.rs`, routing in `ingress.rs` |
| Text, Routing, Registration | `routing.rs`, `auth.rs`, the resolution in `control.rs` |

## Model

| member | source | states |
|---|---|---|
| TunnelTheorems.UploadIntegrity | crates/norupo-server/src/session.rs:219-259 | In every run: what the agent has put into a request body is a prefix of what was read from that stream's client; while it holds the stream with its body open nothing is missing but what is on the way; a body it has completed is the whole client body |
| TunnelTheorems.DownloadIntegrity | crates/norupo-client/src/agent.rs:475-544 | In every run: what a public body was handed is a prefix of the local response, nothing is missing but what is on the way, and a body that was handed a clean end holds the complete local response |
| TunnelTheorems.CreditConservation | crates/norupo-server/src/session.rs:225-246 | In both directions permits, credit taken, bytes underway and credit underway never exceed the window, and add up to it while both sides hold the stream |
| TunnelTheorems.NoGrantSaturates | crates/norupo-client/src/agent.rs:320-326 | With a window that fits u32, every WindowUpdate underway is at most the window and every conversion of a length to u32 is exact |
| TunnelTheorems.NoLostCredit | crates/norupo-server/src/session.rs:226-233 | With a window of at least one chunk, a sender parked on a live stream has Data or a WindowUpdate of its stream underway or being handled |
| TunnelTheorems.StallsExactlyBelowChunk | crates/norupo-server/src/config.rs:78-80 | In each direction a run exists in which a sender waits on a stream that both sides hold, with nothing of it underway that could bring credit, if and only if the window is smaller than a chunk |
| TunnelTheorems.OversizedChunkWaits | crates/norupo-server/src/session.rs:229-232 | In every reachable state a chunk larger than the window gets no credit, on either side |
| TunnelTheorems.BoundedUpload | crates/norupo-client/src/agent.rs:294-331 | Upload bytes underway never exceed the window, the agent's body channel never 16 chunks, and bytes queued but not taken by the local service never their sum |
| TunnelTheorems.BoundedDownload | crates/norupo-server/src/session.rs:309-319 | The same for the download and the public body's channel |
| TunnelTheorems.NothingFollowsEnd | crates/norupo-client/src/agent.rs:475-514 | In both FIFOs neither Data nor a second End of a stream comes after its End |
| TunnelTheorems.OpenComesFirst | crates/norupo-client/src/agent.rs:285-309 | Every frame the agent will read is an Open for a stream it never heard of, or for a stream it knows, or has its Open ahead of it in the FIFO |
| TunnelTheorems.SystemEdgeIsARun | crates/norupo-server/src/control.rs:157-174 | The edge of the joint system makes a run of the edge against an arbitrary agent, so what holds there holds here |
| Flow.LanePreserved | crates/norupo-server/src/session.rs:219-248 | Nothing that can happen to one direction of a stream breaks its integrity, its credit account, or the order and size of its frames |
| TunnelRuns.NextKeeps | crates/norupo-client/src/agent.rs:250-354 | Every step of either side keeps the invariant of every stream |
| EdgeRuns.BodiesAreWords | crates/norupo-server/src/session.rs:309-335 | Against any agent, a public body is handed Data* (End or Reset)?, at most 16 chunks of it waiting, and End only after an End frame |
| EdgeReplies.BodiesAreFrames | crates/norupo-server/src/session.rs:309-335 | In every run against any agent, a public body is handed the agent's frames for its stream one by one and in order, Data for Data, End for End, Reset for Reset, and while it is received nothing is missing but what the read loop holds |
| EdgeReplies.EndingDecidesReply | crates/norupo-server/src/ingress.rs:281-353 | In every run the way in which the wait for the response head ended decides the answer: the tunnel's body if the head was taken, 404 if Open could not be queued, 502 if the stream was closed without a head, 504 if the time was up, and never another |
| EdgeReplies.RepliesNeedHeads | crates/norupo-server/src/session.rs:291-305 | A client is served a body only after a head of its stream has come, and answered 502 only if none has |
| EdgeBodies.BodiesCutShort | crates/norupo-server/src/ingress.rs:381-391 | In every run against any agent, a served body whose channel has closed was handed neither End nor Reset if and only if its stream was taken out of the table when no such chunk had been handed over and the read loop was not waiting to hand over one |
| EdgeBodies.RemovalDecides | crates/norupo-server/src/session.rs:351-368 | Over whole runs: whatever takes the stream out of the table, the served body ends without a terminal chunk if and only if none had been handed to it by then and the read loop held none |
| EdgeBodies.TeardownEndsBodies | crates/norupo-server/src/session.rs:362-368 | No served body that teardown finds in the table ever gets a terminal chunk |
| EdgeBodies.CutBodyExample | crates/norupo-server/src/ingress.rs:381-391 | A run from the start: the head is taken, the session is lost, and the client is served a body that has ended with neither End nor Reset |
| TunnelRelease.CutByUploadOrTeardown | crates/norupo-server/src/session.rs:309-345 | With this agent nothing else cuts a body that is listened to; the read loop never does |
| AgentBodies.RequestBodiesCutShort | crates/norupo-client/src/agent.rs:310-369 | In every run a request body that has ended at the local service was taken with its channel open if and only if a Reset, a failed delivery or the serving task removed the entry before End; otherwise it is the whole body of a client that came to its end; while the service listens, it holds all that was read from the client if and only if nothing was on the way when it closed and nothing was read since |
| AgentBodies.TakenByResetOrTask | crates/norupo-client/src/agent.rs:319-336 | A body that the service listens to is never taken by a failed delivery |
| AgentBodies.CutRequestExample | crates/norupo-client/src/agent.rs:333-336 | A run from the start: the client's body fails, and the service has an empty request body that has ended |
| AgentAnswers.EveryRequestIsAnswered | crates/norupo-client/src/agent.rs:435-514 | In every run with the session's queue open, what the agent has queued for a request whose task is through is a single Reset exactly if the local service was not reached; head, data and Reset if its answer broke off; head, the whole answer and End if not; and only a stream that had been dropped before, by a Reset or a failed delivery, lacks its last frame |
| AgentAnswers.AnswersAreInOrder | crates/norupo-client/src/agent.rs:454-500 | Before that: nothing until the service has answered, then its head, and its data in order |
| AgentAnswers.RefusedExample | crates/norupo-client/src/agent.rs:435-452 | A run from the start: nothing listens on the local port, and the whole answer is a Reset |
| AgentAnswers.AnsweredExample | crates/norupo-client/src/agent.rs:454-514 | A run from the start: the service answers with an empty body, and the whole answer is a head and an End |
| EdgeRuns.FinishedHandlersLeaveNothing | crates/norupo-server/src/ingress.rs:403-411 | A handler that ran to its end has no entry in the table and no receiver; a removed stream is being closed |
| EdgeRuns.EntryOutlivesHandler | crates/norupo-server/src/ingress.rs:327-353 | In every run, when a handler is through, its stream is in the table if and only if the handler was dropped before there was a guard and neither the upload task, nor the read loop, nor teardown has closed the stream |
| EdgeRuns.CancelledEntryPersists | crates/norupo-server/src/ingress.rs:300-324 | From any reachable state with such an entry, a run keeps it exactly as long as it holds no close of these three |
| EdgeRuns.UnannouncedEntryHasNoUpload | crates/norupo-server/src/ingress.rs:283-324 | An entry whose Open was never queued is never removed by an upload task |
| EdgeRuns.CancelledHandlerLeavesItsEntry | crates/norupo-server/src/ingress.rs:314-320 | The shortest run that leaves an entry behind, counted, and the failing client body that removes it after all |
| TunnelRelease.UnannouncedWaitsForTeardown | crates/norupo-server/src/session.rs:363-368 | With this agent such an entry goes by teardown and nothing else |
| EdgeRuns.ReleasedSenderSendsNothing | crates/norupo-server/src/session.rs:230-232 | In any run from the closing of a semaphore, a sender that was waiting on it queues nothing more and can stop until it has |
| TunnelRelease.DroppedSenderSendsNothing | crates/norupo-client/src/agent.rs:528-530 | The same for the agent's senders of dropped streams |
| EdgeRuns.FeedAdvances | crates/norupo-server/src/session.rs:352-360 | A step moves a stream at most one phase forward in its life and never back, and counting down is what makes it finished |
| EdgeRuns.NeverResurrected | crates/norupo-server/src/session.rs:351-360 | From any reachable state, a removed stream never returns to the table and is counted down exactly once, when it becomes finished |
| EdgeRuns.IdsAreFresh | crates/norupo-server/src/session.rs:178-189 | A new stream gets an id that no stream has had |
| EdgeCounting.FeedCounts | crates/norupo-server/src/session.rs:173-189 | Only the addition and the subtraction move the counter, only the limit check and the addition the number of pending openers |
| EdgeCounting.CheckIsExact | crates/norupo-server/src/session.rs:173-176 | Below 2^63 streams ever opened the wrapped u64 passes the limit check exactly when the integer it stands for does |
| EdgeCounting.CounterTracksTable | crates/norupo-server/src/session.rs:352-360 | Table size is the counter plus openers between insert and add minus closers between remove and subtract, the u64 being that integer modulo 2^64 |
| EdgeCounting.TableBound | crates/norupo-server/src/session.rs:173-189 | With at most k openers between check and count at any time, the table never exceeds limit + k - 1 |
| EdgeCounting.BoundIsReached | crates/norupo-server/src/session.rs:173-189 | For every limit and k some run with at most k such openers ends with limit + k - 1 streams |
| Frames.Cut | crates/norupo-client/src/agent.rs:523-525 | The chunks of a payload are nonempty, at most 64 KiB, and concatenate to it |
| Frames.SplitChunks | crates/norupo-server/src/session.rs:372-382 | The loop yields exactly those chunks, and one empty frame for an empty payload |
| Frames.CutPayload | crates/norupo-client/src/agent.rs:523-543 | The agent's cutting loop yields exactly those chunks, none for an empty payload |
| SessionObject.Session.constructor | crates/norupo-server/src/session.rs:108-128 | A session starts in the initial state of the edge |
| SessionObject.Session.Send | crates/norupo-server/src/session.rs:134-136 | A frame joins the queue, or the queue is closed and the caller is told |
| SessionObject.Session.OpenHttpStream | crates/norupo-server/src/session.rs:167-214 | Refused without a trace at the limit; else the next id is inserted, counted and announced last; with a closed queue it is taken down again |
| SessionObject.Session.SendStreamData | crates/norupo-server/src/session.rs:219-248 | The chunks go out in order, each paid for before it is queued, as far as the credit reaches; the result says why it stopped; in every branch a nonempty payload makes a run of the protocol |
| SessionObject.Session.SendStreamEnd | crates/norupo-server/src/session.rs:251-259 | The end is queued as the step of the protocol |
| SessionObject.Session.GrantWindow | crates/norupo-server/src/session.rs:262-273 | A WindowUpdate is queued for a positive increment only, as the read loop's step |
| SessionObject.Session.ResetStream | crates/norupo-server/src/session.rs:276-286 | The entry is gone and then a Reset is queued, as a run of the protocol for whoever calls |
| SessionObject.Session.DropGuard | crates/norupo-server/src/ingress.rs:403-411 | The entry is gone and a Reset is queued only if the queue takes it at once, as a run of the protocol |
| SessionObject.Session.OnResponseHead | crates/norupo-server/src/session.rs:291-305 | The head reaches a stream that is still in the table, as in the protocol |
| SessionObject.Session.OnStreamData | crates/norupo-server/src/session.rs:309-319 | The chunk is buffered, waits for room, or closes a stream nobody reads; the result is what may be granted back |
| SessionObject.Session.OnStreamEnd | crates/norupo-server/src/session.rs:322-327 | The end is delivered or waits for room, and the stream is closed after it |
| SessionObject.Session.OnStreamReset | crates/norupo-server/src/session.rs:330-335 | The same for a reset |
| SessionObject.Session.OnWindowUpdate | crates/norupo-server/src/session.rs:338-342 | Credit is added to a stream that is still in the table |
| SessionObject.Session.CloseStream | crates/norupo-server/src/session.rs:352-360 | The entry goes, its semaphore is closed and the counter goes down by one, or nothing happens |
| SessionObject.Session.CloseAllStreams | crates/norupo-server/src/session.rs:363-368 | No entry is left and the counter is down by as many as there were |
| SessionSteps.PlayIsRun | crates/norupo-server/src/session.rs:167-368 | The trace that a call is shown to perform goes through the states of a run |
| SessionSteps.CallExtendsRun | crates/norupo-server/src/session.rs:167-368 | A call made in a reached state extends the run that reached it, so every theorem about runs holds before, between and after calls |
| SessionSteps.CallsKeepPromises | crates/norupo-server/src/session.rs:167-368 | After any call in such a state bodies are words, finished handlers have left no entry and the counter tells the table |
| SessionSteps.OpenedSteps | crates/norupo-server/src/session.rs:173-213 | A successful open is the run of its atomics in the protocol |
| SessionSteps.FailedSteps | crates/norupo-server/src/session.rs:204-207 | So is one that finds the queue closed |
| SessionSteps.CloseSteps | crates/norupo-server/src/session.rs:352-360 | So are the removal, the closing of the semaphore and the subtraction |
| SessionSteps.TeardownSteps | crates/norupo-server/src/session.rs:363-368 | So is tearing every stream down |
| SessionSteps.HandledSteps | crates/norupo-server/src/session.rs:309-335 | So is handling a Data, End or Reset frame |
| SessionSteps.UploadSteps | crates/norupo-server/src/session.rs:225-246 | So are the rounds of the upload loop with an open queue, for every nonempty payload and number of chunks |
| SessionSteps.GoneSteps | crates/norupo-server/src/session.rs:220-223 | So is the call that finds the stream gone |
| SessionSteps.CutOffSteps | crates/norupo-server/src/session.rs:235-245 | And the one that has taken credit and finds the queue closed |
| SessionSteps.ResetSteps | crates/norupo-server/src/session.rs:276-286 | Closing and then resetting, at the timeout, for a failed client body or by the guard, is a run of the protocol |
| SessionSteps.GrantSteps | crates/norupo-server/src/control.rs:292-301 | Returning credit is the read loop's step after a delivery |
| AgentObject.SessionCtx.DropStream | crates/norupo-client/src/agent.rs:111-115 | The entry goes and with it its semaphore |
| AgentObject.SessionCtx.EndServing | crates/norupo-client/src/agent.rs:508-514 | The task's last step drops the stream, as in the protocol |
| AgentObject.SessionCtx.CloseRequestBody | crates/norupo-client/src/agent.rs:362-369 | The entry stays and its body takes no more |
| AgentObject.SessionCtx.HandleServerFrame | crates/norupo-client/src/agent.rs:250-354 | Open registers at once; Data is buffered and its credit returned, waits, or drops the stream; End, Reset and WindowUpdate act on streams still held |
| AgentObject.SessionCtx.SendPayload | crates/norupo-client/src/agent.rs:517-544 | The chunks go out in order, each paid for, as far as the credit reaches; nothing for an empty payload; the result says why it stopped; every branch is a run of the protocol |
| AgentSteps.HandledSteps | crates/norupo-client/src/agent.rs:285-341 | Handling a frame is a run of the agent in the protocol |
| AgentSteps.PushSteps | crates/norupo-client/src/agent.rs:523-543 | So are the rounds of the response loop with an open queue |
| AgentSteps.DroppedSteps | crates/norupo-client/src/agent.rs:528-530 | So is the call whose stream has been dropped |
| AgentSteps.CutOffSteps | crates/norupo-client/src/agent.rs:533-541 | And the one that has taken credit and finds the queue closed |
| Codec.RoundTrip | crates/norupo-core/src/registry.rs:54-86 | Decoding an encoded record gives it back if and only if no field holds a tab |
| Codec.DecodeThenEncode | crates/norupo-core/src/registry.rs:71-86 | A string decodes if and only if it has five tabs or more, and encoding gives it back exactly at five |
| Codec.EncodeNonempty | crates/norupo-core/src/registry.rs:353-357 | A record is never the empty string that stands for success |
| Codec.CaptureMeansMatch | crates/norupo-core/src/registry.rs:256-256 | Evaluating the owner pattern agrees with what a match of it is, which is unique |
| Codec.OwnerIsFourthField | crates/norupo-core/src/registry.rs:256-256 | The pattern yields the fourth field of every string with three tabs or more and nil below |
| Codec.OwnerOfRecord | crates/norupo-core/src/registry.rs:272-273 | For a stored record that is the session id |
| Codec.OwnerOfTabbedKey | crates/norupo-core/src/registry.rs:256-256 | With one or two tabs in the key the scripts read the node in the owner's place, with more a part of the key |
| Lease.AcquiringExcludes | crates/norupo-core/src/registry.rs:182-200 | In every history, when a session acquires a key every other session's latest grant has expired or was released by it |
| Lease.OneHolder | crates/norupo-core/src/registry.rs:182-229 | No two sessions hold a key at the same time |
| Lease.RefusalNamesHolder | crates/norupo-core/src/registry.rs:186-190 | A refused claim names the session that holds the key then |
| Lease.TimelySessionKeepsKey | crates/norupo-server/src/config.rs:93-101 | A session that refreshes before each deadline and does not release keeps the key through any history |
| Lease.HolderIsSeen | crates/norupo-core/src/registry.rs:202-218 | While it does, others are refused, lookups lead to it and its renewals succeed |
| Lease.ReconnectWaits | crates/norupo-core/src/registry.rs:182-200 | After one session's claim, another's is refused in its name if and only if the deadline of the first is still to come |
| Lease.ReconnectIsRefused | crates/norupo-core/src/registry.rs:182-200 | At two ids and one key: claimed at 0 for 30, refused at 29, acquired at 30 |
| Lease.AbandonedKeyExpires | crates/norupo-server/src/control.rs:176-179 | A key of which no claim is acquired and no renewal succeeds is free from its deadline on, whatever else is called |
| Lease.StrangersAreRefused | crates/norupo-core/src/registry.rs:182-218 | That is so when the owner leaves it alone and others claim it only before its deadline, however often they claim or renew |
| MemoryRegistry.RefinesIdeal | crates/norupo-core/src/registry.rs:158-229 | Lazy eviction cannot be observed: over every history the answers are those of the lease table |
| MemoryRegistry.StoredMayBeDead | crates/norupo-core/src/registry.rs:220-229 | Although the stored map can hold an entry that has expired |
| MemoryRegistry.Registry.EvictExpired | crates/norupo-core/src/registry.rs:158-163 | Exactly the entries past their deadline go |
| MemoryRegistry.Registry.DoClaim | crates/norupo-core/src/registry.rs:182-200 | The claim as the step that is shown to refine the lease table |
| MemoryRegistry.Registry.DoLookup | crates/norupo-core/src/registry.rs:202-206 | The lookup, likewise |
| MemoryRegistry.Registry.DoRenew | crates/norupo-core/src/registry.rs:208-218 | The renewal, likewise |
| MemoryRegistry.Registry.DoRelease | crates/norupo-core/src/registry.rs:220-229 | The release, likewise, without eviction |
| RedisRegistry.CallExactly | crates/norupo-core/src/registry.rs:253-290 | On a store that shows the table, whatever its records hold, a call answers as the lease table if and only if it reads right: a reader needs the record free of tabs, the scripts need its owner where they look |
| RedisRegistry.RefinesExactly | crates/norupo-core/src/registry.rs:342-392 | Over every history of positive lifetimes whose calls read and act right the answers are those of the lease table, and the next one is if and only if it reads right |
| RedisRegistry.HiddenOwnerIsStranger | crates/norupo-core/src/registry.rs:253-290 | An owner that the scripts do not see can neither renew nor release nor claim again, and a lookup finds another record |
| RedisRegistry.TabbedOwnerIsHidden | crates/norupo-core/src/registry.rs:256-257 | With tabs in the key that is every owner but one named like the field read instead |
| RedisRegistry.ClaimNeedsLifetime | crates/norupo-core/src/registry.rs:261-261 | A claim of a free key is acquired if and only if the lifetime is positive |
| ControlTheorems.NoOrphans | crates/norupo-server/src/control.rs:248-291 | In every run each lease in force names its session's node and address, its account and a tunnel that the session took up for that key; and it is listed by its session, is the claim or close in progress, or awaits its teardown, unless the latest call of that session for that key that counts failed: a lost reply to a successful claim or a failed release, with no effective release and no answered claim since; nothing else belongs to an ended session |
| ControlTheorems.CleanupIsSafe | crates/norupo-server/src/ingress.rs:151-164 | The ingress's cleanup, whatever becomes of its call, never takes a lease from a session that its node still knows |
| ControlTheorems.LookupsLeadHome | crates/norupo-server/src/ingress.rs:137-153 | A record found names the node, the address and the account of the session it belongs to, and a tunnel of that session for this key |
| ControlTheorems.TunnelLimitHolds | crates/norupo-server/src/control.rs:328-333 | A positive limit on tunnels is never exceeded |
| ControlTheorems.LeasesArePermitted | crates/norupo-server/src/control.rs:335-361 | Every key in the table was permitted to the account that holds it |
| ControlExpiry.OrphansExpire | crates/norupo-server/src/control.rs:221-226 | From any state a lease is gone from its deadline on unless its session acquires or renews it, whatever else is called and whichever calls fail |
| ControlExpiry.LeftBehindIsGone | crates/norupo-server/src/control.rs:250-258 | In any reachable state a lease that a failed call has left behind runs out at most one lifetime later, and is gone then unless its session acquires or renews it |
| ControlExpiry.QuietSessionsFade | crates/norupo-server/src/control.rs:203-227 | A session that lists no tunnel for a key while it is connected, is not claiming it and has it in no heartbeat round lets it run out, one lifetime later at most, unless it asks for that key again; a disconnected one may still list it |
| ControlExpiry.EndedSessionsFade | crates/norupo-server/src/control.rs:248-263 | A session that has ended, with its heartbeat at rest, never acquires or renews anything again, so what its teardown could not release is gone one lifetime later at most |
| ControlExpiry.DeadNodeIsForgotten | crates/norupo-core/src/registry.rs:17-19 | From any reachable state in which a node falls silent, one lifetime later no key leads to it, whatever the other nodes do |
| ControlTabs.RunsAreTabFree | crates/norupo-core/src/registry.rs:50-52 | In every run over names without tabs and accounts that can register no key with one, all records are free of tabs, so every call reads and acts right |
| ControlStore.ExecAlike | crates/norupo-core/src/registry.rs:342-392 | A whole run of sessions, heartbeats and ingresses over the scripts goes through the states of the run over the lease table, with a store that shows the table, as long as its calls read and act right |
| ControlStore.StoreRunsAgree | crates/norupo-core/src/registry.rs:50-52 | So does every run with a positive lifetime, names without tabs and accounts that can register no key with one |
| ControlStore.StoreRunsAnswer | crates/norupo-core/src/registry.rs:253-290 | And after it every call with a positive lifetime is answered over the store as over the lease table |
| ControlContinuity.TunnelStaysUp | crates/norupo-server/src/control.rs:180-229 | From any reachable state with a tunnel that is up, it is up at every point of what follows if and only if each refresh comes before the deadline set by the one before it and the session neither hangs up nor closes a tunnel for the key |
| ControlContinuity.UpIsSeen | crates/norupo-server/src/ingress.rs:137-163 | While it is up every lookup names its session and node, others' claims are refused in its name, its own claims and renewals succeed, and no cleanup is due for it |
| ControlContinuity.InsertedIsUp | crates/norupo-server/src/control.rs:357-368 | A tunnel is up once it is inserted, if the lease claimed for it still runs |
| ControlContinuity.TwinTakesKeyAway | crates/norupo-server/src/control.rs:282-290 | In any reachable state in which a session can register a key it holds once more, doing so and closing that tunnel leaves the first listed and its key free |
| ControlContinuity.TwinExample | crates/norupo-server/src/control.rs:357-368 | With one TCP port, from the start |
| ControlContinuity.RoundOutlivesClose | crates/norupo-server/src/control.rs:203-209 | In any reachable state with a round under way that has a live tunnel still to renew, closing it with a failed release and going on with the round gives the lease left behind another lifetime |
| ControlContinuity.RoundOutlivesExample | crates/norupo-server/src/control.rs:203-209 | With one TCP port, from the start: claimed at 0 for 30, closed at 10, in force until 40 |
| ControlRuns.NextKeeps | crates/norupo-server/src/control.rs:156-291 | Every step of every session, heartbeat and ingress keeps the invariant behind these |
| ControlPlane.Plane.RegisterTunnel | crates/norupo-server/src/control.rs:317-393 | Limit, resolution, claim and insertion are the steps of the machine; the tunnel is listed exactly when the answer accepts it, and then the table's record for its key holds this session, this tunnel's id, this account and this node for one lifetime |
| ControlPlane.Plane.CloseTunnel | crates/norupo-server/src/control.rs:282-290 | Removal and then release are the steps of the machine |
| ControlPlane.Plane.Teardown | crates/norupo-server/src/control.rs:248-263 | The session is off the node, owns no key whose release took effect, and no other session's lease has changed |
| ControlPlane.Plane.BeatOnce | crates/norupo-server/src/control.rs:203-227 | A round keeps exactly the tunnels whose renewal did not answer that the key is lost |
| ControlPlane.Plane.RouteKey | crates/norupo-server/src/ingress.rs:137-181 | Local, cleaned up, handed over once, refused the second time, not found or unavailable, as the table says; the release of a cleanup may fail, with or without effect |
| ControlPlane.Plane.Handle | crates/norupo-server/src/ingress.rs:126-165 | The host becomes the key, or is refused with its error; the key is routed as above |
| ControlPlane.RegisterThenHandle | crates/norupo-core/src/routing.rs:3-7 | Once a tunnel has been accepted, a request on its node whose host spells the host that was asked for is served by its session: label, dot and base, unless the base's key has a colon, or the custom domain |
| Routing.ExactPreimage | crates/norupo-core/src/routing.rs:104-155 | A string normalises to a canonical key if and only if, trimmed, it is a case variant of it, then dots, then optionally a colon and digits |
| Routing.RangeIsCanonical | crates/norupo-core/src/routing.rs:104-155 | The keys produced are exactly the canonical strings |
| Routing.FixedPoint | crates/norupo-core/src/routing.rs:136-154 | A key is its own canonical form if and only if it does not end in whitespace |
| Routing.SpaceDotIsNoFixedPoint | crates/norupo-core/src/routing.rs:136-154 | "a ." gives the key "a ", which gives another |
| Routing.KeyLettersOf | crates/norupo-core/src/routing.rs:136-154 | A key is ASCII without 'A' to 'Z', and its characters are those of the host in one piece, each moved 32 places on exactly when it is one of these |
| Routing.RefusedForm | crates/norupo-core/src/routing.rs:112-134 | Refused for its bracket is exactly a literal that is not closed, for its port exactly a host with something else than digits behind its first colon |
| Routing.RefusedEmpty | crates/norupo-core/src/routing.rs:106-139 | Refused as empty is exactly a host of nothing but whitespace, or dots before the port |
| Routing.RefusedText | crates/norupo-core/src/routing.rs:141-153 | As not ASCII or too long, only what is |
| Text.WhitespaceListed | crates/norupo-core/src/routing.rs:105-105 | Whitespace is the 25 code points of the Unicode property |
| Text.TrimIsMiddle | crates/norupo-core/src/routing.rs:105-105 | Trimming takes whitespace off both ends, all of it and nothing else |
| Routing.AcceptsLabels | crates/norupo-core/src/routing.rs:189-222 | Accepted are exactly the DNS labels without the punycode prefix, up to case and surrounding whitespace |
| Routing.LabelLetters | crates/norupo-core/src/routing.rs:189-222 | The label accepted is the request's, letter by letter in lower case |
| Routing.RefusedLabel | crates/norupo-core/src/routing.rs:192-219 | Each refusal of a label has the cause it names |
| Routing.ReservedExactly | crates/norupo-core/src/routing.rs:164-168 | Reserved are the 31 words, up to case, and no others |
| Routing.GeneratedIsFreeLabel | crates/norupo-core/src/routing.rs:227-239 | Whatever the generator draws is a label and never reserved |
| Routing.DirectChild | crates/norupo-core/src/routing.rs:265-274 | A host has a subdomain if and only if its key is that label, a dot and the base's key |
| Routing.InverseExactly | crates/norupo-core/src/routing.rs:250-274 | The subdomain of a public host is the label it was made from if and only if the base's key has no colon and no whitespace at its end |
| Routing.RegisteredIsReachable | crates/norupo-server/src/ingress.rs:126-137 | Some request reaches a registered subdomain if and only if the base's key has no colon, and then exactly the spellings of its host do |
| Routing.ColonLosesLabels | crates/norupo-core/src/routing.rs:250-274 | Under a base whose key has a colon every label is accepted, none is recovered, and no request reaches its host |
| Routing.LiteralBaseLosesLabel | crates/norupo-core/src/routing.rs:250-274 | "[::1]" is such a base |
| Routing.StorageKeysInjective | crates/norupo-core/src/routing.rs:86-93 | Distinct keys are stored under distinct strings, hosts apart from ports |
| Routing.PortIsStored | crates/norupo-core/src/routing.rs:86-93 | A port is stored as "tcp:" and its decimal digits |
| Registration.RegisteredIsFound | crates/norupo-core/src/routing.rs:3-7 | What the ingress makes of a host is the very string that a request's key is stored under if and only if the host spells what was requested: the custom domain, or label, dot and the base's key, unless that has a colon |
| Registration.ResolvedHost | crates/norupo-server/src/control.rs:396-428 | Which host each request resolves to, exactly: a custom domain goes first and must be covered, a label must not be reserved without a grant, and without either the drawn label is taken |
| Registration.RefusedRequests | crates/norupo-server/src/control.rs:396-440 | A label is refused as reserved exactly if it is one of the words and none of the account's entries is it, a domain as not verified exactly if no entry covers it; ports exactly outside 1 to 65535 |
| Registration.GrantedExactly | crates/norupo-core/src/auth.rs:53-57 | An account may claim exactly the labels that one of its entries is, letter by letter up to case |
| Registration.CoversExactly | crates/norupo-core/src/auth.rs:63-75 | An entry covers itself up to case, a wildcard exactly the names strictly below it |
| Registration.WildcardNeedsLowerCase | crates/norupo-core/src/auth.rs:65-70 | A wildcard with an upper-case letter covers no key |
| Registration.UpperCaseWildcardFails | crates/norupo-core/src/auth.rs:65-72 | "*.B" does not cover "a.b", though "*.b" and the exact entry "a.B" do |
| Registration.LabelKeyTabs | crates/norupo-core/src/routing.rs:250-257 | Under the base a key holds a tab if and only if the base's key does |
| Registration.ExactKeyTabs | crates/norupo-core/src/auth.rs:71-73 | Under an exact entry if and only if the entry does |
| Registration.WildcardKeyTabs | crates/norupo-core/src/auth.rs:65-70 | Under a wildcard if and only if its suffix does or what the request puts below it |
| Registration.TabbedKeysExactly | crates/norupo-server/src/control.rs:396-428 | An account can register a key with a tab if and only if the base's key has one and room for a label, or an entry of the account covers the shortest such name |
| Registration.WildcardAdmitsTab | crates/norupo-core/src/routing.rs:104-155 | "*.b" covers a name of "a", a tab and ".b", which is its own canonical form |
| Registration.RegistrableExactly | crates/norupo-server/src/control.rs:396-440 | Some request resolves to a key if and only if it is a label under the base that is free or granted, a custom domain of the account, or a TCP port from 1 to 65535 |

## Left out

- Progress across streams: both read loops wait on one full body channel, so only "parked implies underway" is claimed, and no fairness.
- Bounded outbound queues: a full queue delays the sender, which the choice of interleaving covers; only `try_send` can fail, by choice.
- `Arc<Stream>` handles that outlive their table entry are modelled by ids that keep their state after removal, not as aliases.
- The Dafny classes run a method to its end or to the point where it would wait; what other tasks do in between is modelled by the step functions, which split every method at its awaits and atomics.
- Whoever removes a stream and its two later atomics are not tied to each other: they may happen at any later time, which allows more than the program does.
- The snapshot that `close_all_streams` takes is one step; an entry inserted meanwhile by a handler is left, as in the program.
- Wrap-around of the u64 stream ids, semaphore overflow, and Tokio's own implementation of channels, semaphores and one-shots.
- Error pages are told apart by their status; the reset code and message of a Reset are not modelled.
- Control frames (Welcome, TunnelStatus, Ping, Pong, Shutdown) and the tunnel id, headers and trailers in stream frames carry no stream state and are not modelled.
- `serve_stream` up to the response head: the local request either fails or answers; its error texts are dropped. When `send_payload` fails it ends without End or Reset, as in the program.
- The heartbeat's abort: a round under way when its session disconnects may go on or stop, which allows more than the program does.
- Ids of sessions, tunnels and generated labels are inputs that are assumed fresh or drawn from the alphabet; tokens and authentication are given as a principal.
- Redis transport, scripts failing half-way, clocks of different machines: a script is one atomic step, an expired key is gone exactly at its deadline, time is one non-decreasing number.
- RedisRegistry.RefinesExactly: positive lifetimes only, and so in ControlStore.ExecAlike; a zero heartbeat gives a zero lifetime, for which ClaimNeedsLifetime shows that every claim of a free key fails.
- RedisRegistry.RefinesIdeal: with RedisRegistry.CallSimulates the special case of records without tabs; RedisRegistry.CallExactly and RedisRegistry.RefinesExactly are the general results, and ControlStore.ExecAlike is general in the same way.
- SessionObject.Session.SendStreamData: for an empty payload only the contract, no run of the protocol.
- EdgeCounting.TableBound: for fewer than 2^63 streams ever opened on one session and limits that fit u32.
- OpenTunnel requests for TCP are resolved and leased, but no TCP data path exists to model; byte-rate limits and Shutdown are declared and not implemented.
- The pooled peer client, HTTP parsing, header filtering, error pages, admin endpoints, CLI, configuration and packaging: libraries, I/O or shallow.
