# A verified model of the local datagram library

The library sends datagrams over Unix domain sockets: a client and a server share an engine
(`base_impl`) that keeps a persistent queue of entries while its socket comes and goes, retries
when the kernel is out of buffer space, watches its sends, and reports silent peers. This
project models that engine, the facades and the peer manager above it, and its wire format, and
proves what holds over whole runs.

## Structure

| file | contents |
|---|---|
| `Wire.dfy` | the layout of a datagram, the decoder, and their round trips |
| `IoContext.dfy` | the io thread: a FIFO of handlers, the socket and the two timers, and what cancelling moves into the FIFO |
| `Engine.dfy` | the state machine of `base_impl`, `client_impl` and `server_impl`: one function per handler, and the events around them |
| `Actors.dfy`, `Delivery.dfy`, `Sessions.dfy`, `Naps.dfy` | the invariants and that every step keeps them |
| `Runs.dfy` | the whole invariant, and the main results about sessions in every state that calm runs reach |
| `Fences.dfy`, `Guards.dfy`, `Watchdogs.dfy` | the guard of a connect, and the main results about entries, the sender and the watchdog in every run whose connects are guarded |
| `Basics.dfy`, `Lifetimes.dfy` | what holds in every run, however its connects overlap: wake-ups, session accounts, the end of the io thread |
| `Verdicts.dfy`, `Drain.dfy` | what the completions of its sends make of an entry, and how many of them empty a queue |
| `Backoffs.dfy` | what the sender does next, and for how long it backs off |
| `Transcripts.dfy` | what is reported, against the handlers that ran |
| `Overlap.dfy`, `Twins.dfy`, `Pops.dfy`, `Permanence.dfy`, `LastBytes.dfy`, `Losses.dfy` | what a connect that breaks its guard leads to, and exactly when: two senders, two sends of one entry, an entry or its last byte lost for good |
| `Unwatched.dfy` | the send that starts a session, for as long as it is in play |
| `Heartbeats.dfy`, `Silence.dfy` | heartbeat generations across the io thread and the dispatcher thread |
| `Coupling.dfy` | the engine's reports are a run of the heartbeat machine, and exactly when its assumption is met |
| `Instances.dfy` | concrete runs that lead to the states the results warn about |
| `Facades.dfy`, `Handovers.dfy` | the dispatcher side of `client` and `server`: starting, stopping, reconnecting, and what becomes of what is sent |
| `Composition.dfy` | a client or a server as a whole: its facade posting to its engine |
| `Peers.dfy` | the peer manager's entries and secrets against the history of events |
| `BaseImpl.dfy`, `HeartbeatMonitor.dfy`, `Endpoints.dfy`, `PeerManager.dfy` | the same as classes updated in place, each method proved to take the machine's step |

The machines are values so that runs can be quantified over. The classes hold the source's
fields, and the contract of each method is that the value of the object changes as the machine's
function says; the results about runs carry over. Some methods take a ghost argument, the value
of objects they leave alone, so that their contract can state the whole new state.

## Assumptions

- Handlers of one `io_context` run one at a time in FIFO order. Cancelling or re-arming a timer
  and closing a socket put the pending operations at the back of that queue as aborted
  completions: first the socket's, then the sender's timer, then the watchdog's.
- A successful send reports at least one byte and at most what was offered; a failed send
  reports none. Sends on one socket complete in order. Time does not go back.
- The results come in three strengths. Some hold in every run (`Conceivable` states). Those
  about entries and the watchdog need every client `Connect` handler that creates a socket to be
  guarded (`Guarded`, `Attainable` states): in the queue it finds, up to the next close, at most
  one session starts, with no sender's handler behind its start. The rest need a little more,
  that no successful completion of an earlier connect is queued at all (`Calm`, `Reachable`
  states). A server needs neither.
- The guard is exact for two sender operations (`OverlapExact`). For the entries it is enough
  (`NothingLost`) but not always necessary: a sleeper left over behind the next close breaks it
  and need not do any harm.
- Once the destructor has posted its close, nothing is posted from outside. In the source the
  timer of a client's server check may still post a heartbeat while the session runs; the results
  about a client being destroyed leave such handlers out, of the queue and of the count.
- A dispatcher runs what is enqueued for now before anything delayed, as its queue is sorted by
  time. In the facades a delayed start and a timer's next call therefore wait for an empty
  queue; the heartbeat machine allows a timer to fire at any time between handlers, which
  includes every order the dispatcher has.
- A heartbeat is received only while a session is open (`Punctual`). `CrossingExact` shows that
  this is exactly what is needed, and `StrayExact` exactly when the engine meets it.
- Both ends of a socket store integers in the same byte order, written as little-endian.
- An entry is named by its position in push order, which stands for the shared pointer; the
  object is made when the pushing handler runs, since nothing looks at it before.
- A server makes its engine when it binds. Before the first, the composed system holds an engine
  with nothing queued or pending in its place; a new one is made once the last one's thread was
  joined, which in the source the handler that destroys it waits for.
- Opening, binding and connecting, received datagrams, the verdict of `verify_peer`, and the
  self-checks that ask for a close are choices of the environment.

## What the proofs found

- **The send that starts a session is never watched.** `start_actors` starts the first send and
  then re-arms the watchdog without a limit (`FirstSendUnwatched`). As long as its completion is
  not handled and its session lasts, every check waits on, whatever the time (`NeverWatched`,
  reached in `OldSendUnwatched`); the watchdog is exact for every other send (`WatchdogExact`).
- **Overlapping connects lose an entry.** With `Connect`, `Close`, `Connect` queued, the first
  connect's completion can start a session on the second socket. Two senders then work on one
  socket and send the front entry twice; the second completion pops the entry behind it. That
  entry's callback is scheduled, no send of it is left in play, and in no later run is anything
  of it sent (`LostForGood`); `OverlapLosesEntry` is such a run of a fresh client, in which none
  of its bytes was sent. Over any run of overlapping connects, a connect can lead to two senders
  exactly if it breaks its guard (`OverlapExact`). A single entry can lose a byte too: two sends
  of it that add up to its length may both have sent its beginning, and it is popped as complete
  with its last byte never sent (`BreachGaps`). With an entry waiting, or none and no close asked
  for, and nothing else in the way, a connect can lose bytes for good exactly if it breaks its
  guard and a second entry waits, is queued, or can still be pushed, or the front owes more than
  one byte (`LossExact`). While every connect keeps its guard, nothing is lost (`NothingLost`).
- **A heartbeat handled between two sessions mixes them.** The engine stamps it with a
  generation of no session exactly if it is queued behind its session's close (`StrayExact`).
  Its timer can be taken over by a heartbeat of the next session (`CrossingExact`), whose
  silence is then not signalled (`CrossedBeatIsSilent`). `LateHeartbeatStrays` gives a run.
- **A stopped server can bind again.** A reconnect tick after `stop` still binds.
  `ServerStopExact` says exactly when, and `StoppedServerBinds` gives a run. A stopped client
  stays stopped (`ClientStopIsFinal`).

## Model

| member | source | states |
|---|---|---|
| `Wire.Uint32RoundTrip` | `include/pqrs/local_datagram/impl/client_impl.hpp:186-197` | decoding the four bytes of a 32-bit deadline gives it back |
| `Wire.Uint32Injective` | `include/pqrs/local_datagram/impl/base_impl.hpp:188-191` | different bytes decode to different deadlines |
| `Wire.UserDataRoundTrip` | `include/pqrs/local_datagram/impl/send_entry.hpp:33-73` | user data sent whole arrives as its first `buffer_size` + 31 bytes, so unchanged whenever it fits the buffer |
| `Wire.HeartbeatRoundTrip` | `include/pqrs/local_datagram/impl/client_impl.hpp:189-202` | a heartbeat arrives with its deadline modulo 2^32, whatever the receive buffer, and a residue of zero is no deadline |
| `Wire.DecodeExact` | `include/pqrs/local_datagram/impl/base_impl.hpp:182-254` | on arbitrary bytes: user data is decoded exactly from user-data layouts, a deadline exactly from heartbeats long enough and non-zero, anything else is ignored |
| `Delivery.CompletionFate` | `include/pqrs/local_datagram/impl/base_impl.hpp:325-417` | one completion leaves a waiting entry waiting or finishes it; a lost connection leaves it untouched; only a lack of buffer space is counted; a refused size, or any other error on a server, drops the entry at once; an error is signalled exactly for a loud drop or a client's lost connection |
| `Delivery.SendDoneDelivers` | `include/pqrs/local_datagram/impl/base_impl.hpp:325-433` | the completion tests the captured entry and pops the front, and the two are the same entry |
| `Delivery.StepKeepsDelivery` | `include/pqrs/local_datagram/impl/base_impl.hpp:269-433` | every step keeps the order of entries, their bytes, their retry counts and what was signalled about them |
| `Actors.StepKeepsActors` | `include/pqrs/local_datagram/impl/base_impl.hpp:108-169` | every calm step keeps at most one sender, watchdog, receiver and starter, one of each in a running session, and leftovers ahead of the next start |
| `Actors.ClosedKeeps` | `include/pqrs/local_datagram/impl/base_impl.hpp:128-169` | closing leaves no operation pending and keeps one of each at most, queued ahead of any start |
| `Actors.LeftoverCounts` | `include/pqrs/local_datagram/impl/base_impl.hpp:134-147` | each pending sender, watchdog and receiver operation becomes one queued leftover of its role, and nothing else is queued but a failed connect |
| `Sessions.StepKeepsAttention` | `include/pqrs/local_datagram/impl/base_impl.hpp:282-301` | every step keeps that a sleep without a limit is over an empty deque |
| `Sessions.StepKeepsWatch` | `include/pqrs/local_datagram/impl/base_impl.hpp:305-332` | every step keeps the watchdog's expiry tied to the send in play, of this session |
| `Sessions.StepKeepsCount` | `include/pqrs/local_datagram/impl/server_impl.hpp:38-102` | every step keeps the session accounting |
| `Sessions.StepKeepsDoom` | `include/pqrs/local_datagram/impl/server_impl.hpp:32-36` | once the destructor posted its close, every step keeps that running the queue to its end leaves no socket |
| `Runs.InitHolds` | `include/pqrs/local_datagram/server.hpp:101-154` | a fresh engine satisfies the whole invariant |
| `Runs.StepHolds` | `include/pqrs/local_datagram/impl/base_impl.hpp:86-453` | every handler and every environment event keeps the whole invariant |
| `Runs.RunsExtend` | `include/pqrs/local_datagram/impl/base_impl.hpp:269-453` | no handler gets stuck: in every reachable state an enabled, calm event extends the run |
| `Runs.SingleChain` | `include/pqrs/local_datagram/impl/base_impl.hpp:282-433` | at most one sender chain, watchdog, receiver and starter; the send in play is of the deque's front, offers exactly the bytes it still owes, to its destination, and in a running session is of that session |
| `Watchdogs.SingleSender` | `include/pqrs/local_datagram/impl/base_impl.hpp:282-433` | the same of the sender and its send, in every run with guarded connects |
| `Runs.LeftoversDieFirst` | `include/pqrs/local_datagram/impl/client_impl.hpp:110-152` | a handler that starts a session finds nothing left of an earlier one, queued or pending |
| `Guards.StepKeepsIntact` | `include/pqrs/local_datagram/impl/base_impl.hpp:269-433` | every enabled step whose connect is guarded keeps deliveries and fence, or, for a server, the whole invariant |
| `Guards.ReachableIsAttainable` | `include/pqrs/local_datagram/impl/client_impl.hpp:61-66` | whatever calm runs reach, guarded runs reach |
| `Guards.NothingLost` | `include/pqrs/local_datagram/impl/base_impl.hpp:269-433` | in every run with guarded connects, processed entries followed by the deque are all pushed entries in push order; with those still queued they are all submitted ones in submission order, across closes, overlapping connects, reconnects and server restarts |
| `Guards.CallbacksOnce` | `include/pqrs/local_datagram/impl/base_impl.hpp:420-433` | the callbacks scheduled are those of the processed entries that have one, once each, in push order |
| `Guards.BytesExact` | `include/pqrs/local_datagram/impl/send_entry.hpp:95-119` | the bytes reported as transferred, over all attempts and reconnects, are, offset by offset, a prefix of type byte and payload, and all of it exactly when the entry finished without being dropped |
| `Guards.RetriesBounded` | `include/pqrs/local_datagram/impl/base_impl.hpp:338-371` | at most 100 errors for buffer space in the deque, 10 with nothing sent; a drop for it comes at the 11th with nothing sent, else at the 101st; only a server drops for other errors; at most size + 100 completions |
| `Guards.GiveUpsSignalled` | `include/pqrs/local_datagram/impl/base_impl.hpp:350-385` | each drop for buffer space or size is signalled once, with its error, in order, and nothing else is |
| `Verdicts.EntryHistory` | `include/pqrs/local_datagram/impl/base_impl.hpp:325-417` | in every run with guarded connects: an entry's errors are its completions that failed for buffer space, its bytes those its completions transferred; while it waits, at most 10 such errors, or 100 with something sent, and none but a client's lost connection besides; it is finished by the completion that sends the rest, or by its size, another error on a server, or the 11th or 101st for buffer space |
| `Verdicts.DroppedAtOnce` | `include/pqrs/local_datagram/impl/base_impl.hpp:376-413` | a refused size, and on a server any error but buffer space, ends the entry at the front with that completion: popped, its callback scheduled, its error count and every other entry as they were, and only the size signalled |
| `Backoffs.BackOffExact` | `include/pqrs/local_datagram/impl/base_impl.hpp:290-417` | after a lack of buffer space the sender waits on its timer until exactly 100 ms later; after any other completion that keeps the session it sends the next entry at once, or sleeps without a limit over an empty deque |
| `Backoffs.BackOffLasts` | `include/pqrs/local_datagram/impl/base_impl.hpp:290-301` | in every run from there that handles no push and no close, nothing is sent before the 100 ms have passed, and the timer can fire exactly from then on |
| `Backoffs.WakeGoesOn` | `include/pqrs/local_datagram/impl/base_impl.hpp:296-322` | a sender that is woken sends the front entry at once, or sleeps again over an empty deque |
| `Backoffs.PushWakes` | `include/pqrs/local_datagram/impl/base_impl.hpp:269-274` | a push wakes a sleeping sender, however long it would have slept |
| `Transcripts.AllTold` | `include/pqrs/local_datagram/impl/base_impl.hpp:150-254` | over every run, guarded or not, the reports about sessions, about received datagrams and about lost connections are, kind by kind, those of the handlers that ran, in order and with nothing else; a datagram of type 1 is handed on without its type byte, with its sender |
| `Transcripts.OpeningsCounted` | `include/pqrs/local_datagram/impl/client_impl.hpp:61-152` | over every run, failures reported are the connects that completed with an error, those that could not open or bind, and the binds that failed; openings are the sessions started, closes the running sessions closed |
| `Transcripts.UserDataArrives` | `include/pqrs/local_datagram/impl/base_impl.hpp:241-247` | handling user data that was sent whole reports exactly what was sent, up to its first `buffer_size` + 31 bytes, and who sent it |
| `Transcripts.PathExact` | `include/pqrs/local_datagram/impl/base_impl.hpp:154-159` | a path is recorded exactly if the last said about it was a bind, or a connect with a path, with no close of a running session since |
| `Lifetimes.NoLostWakeUp` | `include/pqrs/local_datagram/impl/base_impl.hpp:269-301` | in every run, a running session with a non-empty deque is sending, has a handler queued, or sleeps 100 ms at most |
| `Watchdogs.WatchdogExact` | `include/pqrs/local_datagram/impl/base_impl.hpp:436-453` | in every run with guarded connects the check closes exactly when the send in play was started in this session, after `start_actors`, more than 5000 ms ago |
| `Watchdogs.WatchdogComes` | `include/pqrs/local_datagram/impl/base_impl.hpp:436-453` | in a client session not asked to close, a watched send that is overdue has its check queued, or the timer that queues it can fire |
| `Runs.OneWatchdog` | `include/pqrs/local_datagram/impl/base_impl.hpp:108-118` | a running client session not asked to close has exactly one watchdog, a server none |
| `Runs.FirstSendUnwatched` | `include/pqrs/local_datagram/impl/base_impl.hpp:108-118` | a session that starts with entries waiting has its first send in play under an unlimited watchdog, and only such a session |
| `Unwatched.NeverWatched` | `include/pqrs/local_datagram/impl/base_impl.hpp:108-118` | over every run that does not handle its completion and stays in its session, the send that started the session stays in play and the check of the watchdog waits on, whatever the time |
| `Instances.OldSendUnwatched` | `include/pqrs/local_datagram/impl/base_impl.hpp:436-453` | a run with such a send more than 5000 ms old |
| `Lifetimes.SessionAccounts` | `include/pqrs/local_datagram/impl/base_impl.hpp:150-166` | in every run, the generation is starts plus closes, closes never exceed starts; for a server, ready, one start more than closes, odd generation and recorded path are the same thing |
| `Runs.GenerationsMoveOn` | `include/pqrs/local_datagram/impl/client_impl.hpp:117-119` | a step keeps the generation or moves it on by one, so none repeats |
| `Lifetimes.JoinReturns` | `include/pqrs/local_datagram/impl/server_impl.hpp:32-36` | in every run from the destructor's close on, as many handlers as were queued are enough to close the socket for good, no handler gets stuck, and once none is queued nothing is pending: joining the io thread returns |
| `Lifetimes.ThreadEnds` | `include/pqrs/local_datagram/impl/base_impl.hpp:65-77` | once the socket is gone for good, handlers that ran plus what remains never exceed what remained then, and the last of them leaves nothing pending |
| `Drain.CompletionWorks` | `include/pqrs/local_datagram/impl/base_impl.hpp:325-417` | a completion that keeps the session finishes its entry or takes at least one unit from rest bytes plus errors still allowed |
| `Drain.WorkBoundsProgress` | `include/pqrs/local_datagram/impl/base_impl.hpp:325-433` | over any run with guarded connects, completions that keep their session plus the work left are at most the initial work plus what was pushed |
| `Drain.QueueDrains` | `include/pqrs/local_datagram/impl/base_impl.hpp:325-433` | with no pushes the number of such completions is bounded by the initial work, and reaching it means an empty deque |
| `Fences.StepKeepsFence` | `include/pqrs/local_datagram/impl/client_impl.hpp:61-150` | every step of a client whose connect is guarded keeps its queued starters fenced off by closes, and one sender at most |
| `Fences.RunsKeepFence` | `include/pqrs/local_datagram/impl/client_impl.hpp:61-150` | no guarded run from a fenced client ever has two senders |
| `Basics.StepKeepsBasic` | `include/pqrs/local_datagram/impl/base_impl.hpp:86-453` | every enabled step, guarded or not, keeps positions known, sessions accounted, a running session manned by a sender and, for a client, a watchdog, sleeps attentive and short, and the end of a destroyed engine due |
| `Basics.AllowedIsFeasible` | `include/pqrs/local_datagram/impl/client_impl.hpp:61-66` | every guarded run is one of the runs of an engine without a guard |
| `Fences.PossibleIsAllowed` | `include/pqrs/local_datagram/impl/client_impl.hpp:61-66` | every calm run is a guarded run |
| `Overlap.OverlapExact` | `include/pqrs/local_datagram/impl/client_impl.hpp:61-150` | for every client with a fence, however many connects overlapped before: a connect that makes a socket can lead to two sender operations, leftovers included, exactly if the queue does not fence its session off |
| `Losses.LossExact` | `include/pqrs/local_datagram/impl/client_impl.hpp:61-150` | with an entry waiting, or none and no close queued, and nothing of an old session in the way: a connect that opens its socket can leave a processed entry that was not given up without some of its bytes for good exactly if the queue does not fence its session off and either a second entry waits, is queued, or can still be pushed, or the front owes more than one byte |
| `Losses.BreachRobs` | `include/pqrs/local_datagram/impl/client_impl.hpp:61-150` | the losing run: of the entries that wait by then, the bytes of the first are sent twice over, the second is popped as it was, its callback scheduled, and no send of it is left |
| `Losses.BreachGaps` | `include/pqrs/local_datagram/impl/base_impl.hpp:325-433` | the other losing run: an entry that owes more than one byte is popped as sent in full, its callback scheduled, with its last byte in no completion and no send of it left |
| `Permanence.LostForGood` | `include/pqrs/local_datagram/impl/base_impl.hpp:282-433` | an entry that left the deque with an offset of its buffer never reported as transferred and no send in play never has it sent, in any run, over closes, reconnects and restarts |
| `Instances.OverlapLosesEntry` | `include/pqrs/local_datagram/impl/client_impl.hpp:61-150` | such a run of a fresh client, step by step from its construction, at whose end the second entry is lost for good with nothing of it sent |
| `Heartbeats.Find` | `include/pqrs/local_datagram/impl/base_impl.hpp:209-213` | the first timer of the sender, or the end if it has none |
| `Heartbeats.Erase` | `include/pqrs/local_datagram/impl/base_impl.hpp:225-228` | exactly the timers of other senders stay |
| `Heartbeats.EraseConcat` | `include/pqrs/local_datagram/impl/base_impl.hpp:225-228` | the timers that stay keep their order |
| `Heartbeats.StepKeepsLayers` | `include/pqrs/local_datagram/impl/base_impl.hpp:154-166` | every punctual step of either thread keeps a clear queued between heartbeats, or timers, of different generations |
| `Heartbeats.StepKeepsMonitoring` | `include/pqrs/local_datagram/impl/base_impl.hpp:200-234` | every step keeps one timer per sender, stamped and armed by the sender's last handled heartbeat |
| `Heartbeats.SessionsDoNotMix` | `include/pqrs/local_datagram/impl/base_impl.hpp:200-234` | in every run no heartbeat is about to re-arm a timer of another generation, even when a close lands between check and effect, and no sender has two timers |
| `Heartbeats.SignalsMeanSilence` | `include/pqrs/local_datagram/impl/base_impl.hpp:218-229` | a signal at a generation follows a heartbeat of that sender stamped with it, non-zero, by at least its deadline, with none handled since |
| `Heartbeats.SilenceIsSignalled` | `include/pqrs/local_datagram/impl/next_heartbeat_deadline_timer.hpp:49-55` | a heartbeat that takes effect and is followed by silence for its deadline is signalled, in the same session |
| `Silence.SilenceNeverMissed` | `include/pqrs/local_datagram/impl/base_impl.hpp:200-234` | in every run a sender whose last heartbeat is of the current generation has a timer due when that heartbeat's deadline passes, or it fired, or its silence was signalled since |
| `Silence.SignalledOnce` | `include/pqrs/local_datagram/impl/base_impl.hpp:218-229` | between two signals of one sender a heartbeat of that sender was handled |
| `Silence.ClosedSessionIsSilent` | `include/pqrs/local_datagram/impl/base_impl.hpp:218-221` | over every run after the generation moved on, no silence of an earlier one is signalled but what was being raised |
| `Silence.StepKeepsFresh` | `include/pqrs/local_datagram/impl/base_impl.hpp:154-166` | every step keeps that a queued clear never erases a timer of the current generation |
| `Heartbeats.CrossingExact` | `include/pqrs/local_datagram/impl/base_impl.hpp:200-207` | a heartbeat lets a later run mix sessions exactly if it is received with no session open |
| `Silence.CrossingFromStart` | `include/pqrs/local_datagram/impl/base_impl.hpp:200-207` | that is so after every run that was punctual until then |
| `Heartbeats.CrossedBeatIsSilent` | `include/pqrs/local_datagram/impl/base_impl.hpp:218-233` | a heartbeat that lands on an older session's timer is never signalled |
| `Coupling.StepCouples` | `include/pqrs/local_datagram/impl/base_impl.hpp:150-207` | every step with a clean close keeps the reports in session, with the engine's generation and openness |
| `Coupling.EngineDrivesHeartbeats` | `include/pqrs/local_datagram/impl/base_impl.hpp:154-207` | an engine that closes its sessions with no heartbeat queued drives the heartbeat machine within its assumption, with the same generation, openness and stamps |
| `Coupling.EngineNeverCrosses` | `include/pqrs/local_datagram/impl/base_impl.hpp:200-234` | however the dispatcher's steps, its timers and the passing of time are interleaved with what such an engine reports, no heartbeat takes effect on a timer of another session, and no sender has two |
| `Coupling.ReportsAreARun` | `include/pqrs/local_datagram/impl/base_impl.hpp:187-207` | reports of sessions in turn are a run of the heartbeat machine |
| `Coupling.StrayExact` | `include/pqrs/local_datagram/impl/base_impl.hpp:150-207` | closing a running session lets a heartbeat be stamped outside a session exactly if one that will be stamped is queued behind the close |
| `Instances.LateHeartbeatStrays` | `include/pqrs/local_datagram/impl/base_impl.hpp:150-207` | a run in which a heartbeat is received while the close of its session is queued, and can be stamped outside it |
| `Facades.ClientStopIsFinal` | `include/pqrs/local_datagram/client.hpp:171-241` | after a client's stop, in every run: no connect posted, no entry pushed, and each later send with a callback schedules it exactly once, in order |
| `Handovers.SendsAccounted` | `include/pqrs/local_datagram/server.hpp:185-203` | over every run of a client or a server: the sends handled, then those queued, are what was sent, in order; those that found an engine are what it was given, in order; the callbacks of the others are scheduled once each and called in that order |
| `Handovers.EngineExact` | `include/pqrs/local_datagram/server.hpp:85-163` | a client has its engine until it handles a stop, a server exactly if the last of a start, a tick, a stop and a loss was a start or a tick; a connect or bind is asked for at each start and tick, by a client with its engine, by a server with none |
| `Handovers.LossSchedules` | `include/pqrs/local_datagram/client.hpp:60-87` | a loss leads to one delayed start of the timer if an interval is set, to its stop otherwise |
| `Handovers.StartStaysPending` | `include/pqrs/local_datagram/client.hpp:202-220` | such a start stays pending until it runs |
| `Handovers.LossReconnects` | `include/pqrs/local_datagram/client.hpp:202-220` | after a loss, with an interval and no stop, a run with nobody asking leads to one more connect, or bind |
| `Handovers.TimerExact` | `include/pqrs/local_datagram/client.hpp:202-220` | the timer runs exactly if the last it was told was to start |
| `Handovers.TimerTicks` | `include/pqrs/local_datagram/client.hpp:202-220` | a timer that starts ticks at once, a running one when its interval has passed, and a tick without an interval stops it |
| `Facades.ClientHandsOver` | `include/pqrs/local_datagram/client.hpp:224-241` | in every run, what a client pushed is the first of what it was given, in order, and until it is stopped the rest is queued behind it |
| `Composition.SentReachesDeque` | `include/pqrs/local_datagram/server.hpp:85-203` | over runs of both threads of a client or a server, over stops, losses and new engines, the user data among the entries processed, in the deque or on the way to it is, in order, with its destinations and callbacks, what was sent while there was an engine; the other sends had their callbacks scheduled, and the rest is queued |
| `Composition.ClientSendsAll` | `include/pqrs/local_datagram/client.hpp:171-241` | for a client that is the first of what the user sent, and until it is stopped the rest is queued behind it |
| `Composition.PostsAllowed` | `include/pqrs/local_datagram/server.hpp:93-184` | what a handler of the dispatcher posts is never refused: an engine is there exactly while the facade has one; only a bind waits until the last engine's thread was joined |
| `Facades.ServerStopExact` | `include/pqrs/local_datagram/server.hpp:93-184` | a server that handled its stop can bind again unasked exactly when its timer was running with no stop of it queued, a delayed start of it pending, or a start or tick queued |
| `Facades.StoppedServerBinds` | `include/pqrs/local_datagram/server.hpp:166-184` | a server that reconnected once, then stopped with nothing queued, can bind again |
| `Peers.EntriesRefineHistory` | `include/pqrs/local_datagram/extra/peer_manager.hpp:113-151` | an entry exists exactly for the paths sent to since their last close or connect failure, with the verdict of its connect |
| `Peers.Gating` | `include/pqrs/local_datagram/extra/peer_manager.hpp:61-91` | unconnected or verified: forwarded then buffered is everything sent, in order; refused: nothing forwarded, and the buffer holds at most the last message since the connect |
| `Peers.ForwardedOnlyWhenTrusted` | `include/pqrs/local_datagram/extra/peer_manager.hpp:73-85` | anything forwarded went to a path with a favourable verdict, and is then everything sent to it |
| `Peers.CloseReportsTrusted` | `include/pqrs/local_datagram/extra/peer_manager.hpp:140-151` | the count reported with a close is that of the other paths alive with a favourable verdict |
| `Peers.SignalsRefineHistory` | `include/pqrs/local_datagram/extra/peer_manager.hpp:133-160` | the signals are those of the failed connects, closes, errors and warnings, in order and with nothing else |
| `Peers.SecretsRefineHistory` | `include/pqrs/local_datagram/extra/peer_manager.hpp:133-172` | a secret is kept exactly when the last insertion or erasure of its path inserted it |
| `PeerManagers.ConstantTimeEqual` | `include/pqrs/local_datagram/extra/peer_manager.hpp:198-210` | the OR of XORs over all bytes finds exactly the equal sequences |
| `PeerManagers.VerifyAgainstHistory` | `include/pqrs/local_datagram/extra/peer_manager.hpp:174-184` | a secret verifies exactly when the last event on it for the path inserted an equal one |
| `PeerManagers.PeerManager.VerifySharedSecret` | `include/pqrs/local_datagram/extra/peer_manager.hpp:174-184` | true exactly for the stored secret of a known path |
| `PeerManagers.PeerManager.FindSharedSecret` | `include/pqrs/local_datagram/extra/peer_manager.hpp:186-195` | the stored secret, or nothing for an unknown path |
| `PeerManagers.PeerManager.InsertSharedSecret` | `include/pqrs/local_datagram/extra/peer_manager.hpp:167-172` | replaces the secret of the path and no other |
| `PeerManagers.PeerManager.CountVerified` | `include/pqrs/local_datagram/extra/peer_manager.hpp:144-147` | the loop over the map counts the verified entries |
| `PeerManagers.PeerManager.AsyncSend` | `include/pqrs/local_datagram/extra/peer_manager.hpp:113-165` | makes the entry if needed and submits the message to it, leaving the others alone |
| `PeerManagers.PeerManager.OnConnected` | `include/pqrs/local_datagram/extra/peer_manager.hpp:124-131` | records the verdict and flushes what was held back, for that path only |
| `PeerManagers.PeerManager.OnConnectFailed` | `include/pqrs/local_datagram/extra/peer_manager.hpp:133-138` | erases the entry and its secret, then reports the error |
| `PeerManagers.PeerManager.OnClosed` | `include/pqrs/local_datagram/extra/peer_manager.hpp:140-151` | erases the entry and its secret, then reports the count of the others |
| `PeerManagers.PeerEntry.AsyncSend` | `include/pqrs/local_datagram/extra/peer_manager.hpp:61-71` | flushes, then forwards or buffers, as the machine does |
| `PeerManagers.PeerEntry.FlushQueue` | `include/pqrs/local_datagram/extra/peer_manager.hpp:73-85` | nothing before the connect; then the buffer is emptied, into the client if verified |
| `HeartbeatMonitors.HeartbeatMonitor.FindTimer` | `include/pqrs/local_datagram/impl/base_impl.hpp:209-213` | the search loop finds the position the machine means |
| `HeartbeatMonitors.HeartbeatMonitor.EraseTimers` | `include/pqrs/local_datagram/impl/base_impl.hpp:225-228` | the erasing loop keeps the other senders' timers, in order |
| `HeartbeatMonitors.HeartbeatMonitor.TakeTask` | `include/pqrs/local_datagram/impl/base_impl.hpp:204-207` | the check of a stamp, or a clear, takes the machine's step |
| `HeartbeatMonitors.HeartbeatMonitor.TakeEffect` | `include/pqrs/local_datagram/impl/base_impl.hpp:209-234` | re-arms the sender's timer or makes a stamped one, as the machine does |
| `HeartbeatMonitors.HeartbeatMonitor.Fire` | `include/pqrs/local_datagram/impl/base_impl.hpp:218-221` | a timer's handler checks its captured stamp |
| `HeartbeatMonitors.HeartbeatMonitor.Raise` | `include/pqrs/local_datagram/impl/base_impl.hpp:223-228` | signals, then erases the sender's timer |
| `HeartbeatMonitors.HeartbeatMonitor.Handle` | `include/pqrs/local_datagram/impl/base_impl.hpp:154-234` | whatever either thread does next is one step of the machine; a punctual one keeps sessions apart, every one keeps the timers armed by the last heartbeats |
| `BaseImpls.SendEntry.Empty` | `include/pqrs/local_datagram/impl/send_entry.hpp:38-46` | the buffer is the type byte, nothing transferred |
| `BaseImpls.SendEntry.FromVector` | `include/pqrs/local_datagram/impl/send_entry.hpp:48-58` | the buffer is the layout of the bytes |
| `BaseImpls.SendEntry.FromPointer` | `include/pqrs/local_datagram/impl/send_entry.hpp:60-73` | as above; a null pointer or zero length leaves the type byte |
| `BaseImpls.SendEntry.Slice` | `include/pqrs/local_datagram/impl/send_entry.hpp:95-103` | the bytes still owed, as many as the rest says |
| `BaseImpls.SendEntry.Complete` | `include/pqrs/local_datagram/impl/base_impl.hpp:330-406` | updates the entry, and decides on the signal, as the machine does; counts a lack of buffer space only, and drops at once for a size or, on a server, any other error |
| `BaseImpls.SendEntry.CountNoBufferSpace` | `include/pqrs/local_datagram/impl/base_impl.hpp:346-367` | counts the error and gives up exactly when patience ends |
| `BaseImpls.BaseImpl.AwaitSendEntry` | `include/pqrs/local_datagram/impl/base_impl.hpp:282-322` | sleeps for exactly the delay, or without a limit, or sends the front entry under the watchdog |
| `BaseImpls.BaseImpl.HandleSend` | `include/pqrs/local_datagram/impl/base_impl.hpp:325-417` | entry, watchdog, deque, timers and signals end up as the machine says, so the fate lemmas above hold of the objects |
| `BaseImpls.BaseImpl.PopFrontSendEntry` | `include/pqrs/local_datagram/impl/base_impl.hpp:420-433` | pops the front and schedules its callback |
| `BaseImpls.BaseImpl.CheckSendDeadline` | `include/pqrs/local_datagram/impl/base_impl.hpp:436-453` | closes, waits again or stops exactly as the check of `WatchdogExact` |
| `BaseImpls.BaseImpl.Deliver` | `include/pqrs/local_datagram/impl/base_impl.hpp:180-254` | the switch on the received bytes reports what the decoder says; user data is handed on without its type byte |
| `BaseImpls.BaseImpl.HandleReceive` | `include/pqrs/local_datagram/impl/base_impl.hpp:174-262` | reports what was received and receives again exactly while a session runs |
| `BaseImpls.BaseImpl.StartActors` | `include/pqrs/local_datagram/impl/base_impl.hpp:108-125` | sender, watchdog and receiver are started in that order |
| `BaseImpls.BaseImpl.CloseSocket` | `include/pqrs/local_datagram/impl/base_impl.hpp:134-147` | everything pending is queued as aborted |
| `BaseImpls.BaseImpl.HandleClose` | `include/pqrs/local_datagram/impl/base_impl.hpp:128-169` | everything pending becomes a leftover; the generation moves on, the path is cleared and the close is reported exactly if the session was ready |
| `BaseImpls.BaseImpl.HandleConnect` | `include/pqrs/local_datagram/impl/client_impl.hpp:48-110` | leaves an existing socket alone; otherwise makes one that is not ready, with a connect pending exactly if it opened |
| `BaseImpls.BaseImpl.HandleConnectDone` | `include/pqrs/local_datagram/impl/client_impl.hpp:110-152` | a success turns ready under a new generation and starts the actors, even with no socket; a failure is reported |
| `BaseImpls.BaseImpl.HandleBind` | `include/pqrs/local_datagram/impl/server_impl.hpp:38-102` | replaces the socket; a success records the path, turns ready and starts the actors, all in one handler |
| `BaseImpls.BaseImpl.HandlePush` | `include/pqrs/local_datagram/impl/base_impl.hpp:269-274` | appends the entry and wakes the sender |
| `BaseImpls.BaseImpl.RunOne` | `include/pqrs/local_datagram/impl/base_impl.hpp:86-453` | running the handler at the front is one step of the machine; a calm step keeps the whole invariant, a guarded one what the entries need |
| `Endpoints.Client.RunOne` | `include/pqrs/local_datagram/client.hpp:107-241` | one step of the machine; a stopped client stays stopped, pushes nothing and posts no connect |
| `Endpoints.Server.RunOne` | `include/pqrs/local_datagram/server.hpp:60-203` | one step of the machine; a stopped server that nothing leads to binding stays stopped |

## Left out

- asio, Nod, the dispatcher library, its timers and debounced tasks, kernel sockets and the file system: environment choices and FIFO queues; a debounced task runs once, at its last arming plus its delay.
- The peer's process id, socket permissions, removal of socket files, path resolvers and warnings' texts.
- The self-check probes of client and server: they are a close that may be asked for at any time.
- That a reconnect eventually succeeds, and that it happens after the interval: time in the facades is left to the environment.
- That every callback eventually runs: the schedule at the pop is the event. Entries left in the deque when a client or server is destroyed are never notified, and what was scheduled may be discarded on detaching.
- The delayed start of the reconnect timer reads an interval that a stop may have cleared, which is undefined in the source; the facade model starts the timer there.
- Counters and sizes are unbounded; only the 32-bit heartbeat deadline wraps.
- Partially transferred datagrams: a resumed suffix carries no type byte, so the round trips are about datagrams sent whole.
- Which bytes the kernel drops beyond the receive buffer, and the kernel's own socket buffers.
- Destroying the client inside its own signal handlers, and detaching from the dispatcher, in the peer manager.
- LossExact: is about a client whose deque is not empty, or that is not being destroyed and has no close queued. Over an empty deque with a close queued behind the breach nothing is claimed: two sends must start ahead of that close, so it depends on the pushes queued ahead of them. Nor is anything claimed with a send of an old session in play, whose result decides; with a sleeper left behind a close, which need not send; or with a further connect queued, which may break its own guard.
- The results about reachable states (`Reachable`: one watchdog, receiver and starter, leftovers, reports to the heartbeat machine) are for calm runs, not for all guarded ones.
- CompletionWorks: bounds each entry by rest bytes plus errors allowed, not by the smaller bound for entries with nothing sent.
