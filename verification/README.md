# Speech router

A model of the speech request router: the state machine of its websocket connections, the session layer that
shares a few session groups between audio sources, the HTTP machine, the descriptor sets of the main loop, URL
parsing, query strings and audio formats - and proofs of what these promise over every run.

## How the model is built

The code of the router works by changing things step by step, so each machine is there twice.

* Classes (`WsConnection`, `RouterMachine`, `HttpConnection`, `MsgOut`, `HttpFds`, `UrlBuffer`, `Query`) have the
  fields of the original structures and methods with its loops and branches, which update them in place.
* Functions on values (`WsSpec`, `WsIo`, `RouterSpec`, `HttpSpec`, and the functions of the smaller modules) say
  what each handler does to the old value. Every method ensures that it does exactly that.

All further properties are lemmas about the functions. They rest on one independent reader: `Monitor` looks only
at the log of outward calls a connection makes (pipes, timers, stream and session ends, frames, notifications)
and says which orders are acceptable and what is outstanding. The invariants of `WsInvariant` and `HttpProofs`
tie that reading to the fields, and the counting lemmas of `Monitor` turn it into plain statements.

The machines are also described a second time, in one step instead of many: `WsOutcomes` and `HttpOutcomes` say for
every resting state and outside event where the connection comes to rest and which calls it makes on the way, without
next-state tables, handlers or posted events, and the processing runs are proved to do just that.

| file | content |
|---|---|
| `Types`, `Monitor`, `Arithmetic`, `CStrings`, `FdSets` | shared vocabulary, the log reader, C strings and numbers, descriptor sets |
| `WsTables`, `WsSpec`, `WsIo` | states, events and tables; handlers and engine; session start, descriptors, speech events |
| `WsInvariant`, `WsRuns`, `WsInputs` | what every dispatch, processing run and main-loop input keeps |
| `WsOutcomes`, `WsPasses` | what every outside event, descriptor pass and speech event does to a connection at rest, all in all |
| `WsReasons`, `WsFlushes`, `WsUnbegun` | reported end reasons; incomplete flushes in a row; streams that end without having begun |
| `WsProgress`, `WsTimers` | every attempt to connect ends; retry delays and fired timers |
| `WsConnection`, `MsgOut`, `MsgOutThreads` | the connection object, its outgoing slots, and the threads that use them |
| `RouterSpec`, `RouterProofs`, `RouterGroups` | the session layer over one connection per source, safety over its runs, stuck groups |
| `RouterOutcomes` | what every kind of step does to the connection it is meant for, and to no other |
| `RouterReasons`, `RouterUnbegun` | end reasons and unbegun streams over runs of the router |
| `RouterMachine`, `SelectSets` | the router object, and the descriptor sets for select over both protocols |
| `HttpSpec`, `HttpProofs`, `HttpOutcomes`, `HttpConnection` | the HTTP machine under the same session contract, and what every outside event does to it |
| `HttpFds` | the descriptor arrays of the HTTP machine |
| `Url`, `UrlBuffer`, `Query`, `AudioFormats` | URL pieces and the in-place parser, query lists and URLs, formats and sizes |

## Assumptions

The engine `xrpSMEngine.h` and the libraries are not part of this model. It takes from them:

* Events are first in, first out, and run to completion. An event without a table entry is dropped. A table entry
  that leads to the same state runs ACT_INTERNAL only; any other runs ACT_EXIT, changes the state, then runs
  ACT_ENTER. Initialising a machine runs no handler.
* Library callbacks come outside the state handlers, inserting a timer succeeds, `select` reports only descriptors
  that were asked for, and a send reports no more bytes than it was given. Everything else a library, the clock or
  the application answers is arbitrary: it is an input of each step.
* Begin messages never ask for a retry (`src/xrsr.c:2485`), a session is configured once, SM_EVENT_XRSR_ERROR is never
  posted, there is one destination per source, and every source has a websocket route. `XRSR_SESSION_RETRIGGER_ABORT`
  is off. Percent-decoding a URL is the identity.
* Time is a number of milliseconds handed to each handler. Only the bound on attempts needs it to advance, between
  two expiries of a connection's timer, a check interval above zero, and parameters that stay what they are
  during the attempt.

## What the proofs found

* When the audio stream of a session cannot be requested, the group stays held by a machine that never starts:
  the clean-up passes the source of the already reset connection, which is invalid (`RouterGroups.ConfigStrands`). Neither
  terminating the session nor a power-mode change frees it (`RouterGroups.StuckForever`).
* A sender that passed its state check before a connection was reset, and queues after it, leaves its message for
  the next session; nothing else does (`MsgOutThreads.StaleExactly`).
* The two end reasons recorded for a remote event are dead stores: a router without them shows the same in every run
  (`RouterReasons.RemoteReasonsAreDead`).
* The application can hear that a stream ended without having heard that it began: when audio ends while it is still
  buffered, and when a session is terminated between two attempts - exactly then (`RouterUnbegun.UnbegunExactly`), and
  both occur (`RouterUnbegun.BufferedEndsSilently`, `RetryEndsSilently`). The exit of Connected on WS_CLOSE would
  do it too (`WsUnbegun.EndsUnbegun`), but takes a close callback inside a state handler, which the assumptions exclude.
* A streaming session ends on its sixth incomplete flush in a row, but on its fifth when the peer closed the session
  before it during a flush and no flush was completed since (`WsFlushes.EndsOnSixth`, `CloseLeavesOne`,
  `StartInherits`): the close ends the old session before its flush is counted, and nothing clears that count.
* A send error is ignored in Established, so such a flush does not end a session whose EOS_PIPE was already waiting
  (`WsFlushes.SixthFlush`).
* Twenty-four or more query strings from the application put the closing NULL of the config message past its list, onto
  the keyword fields. These are set afterwards, so the merged list is still right (`Query.ConfigMessage.Fill`,
  `Query.Merge`).
* A websocket URL whose route ends in a bare question mark gets an empty first parameter; the HTTP URL does not
  (`Query.WsParams`, `Query.HttpParams`).
* The port check accepts texts that are no port numbers: the empty text, a number with white space or a sign before it or
  anything behind it, and a negative number such as `-18446744073709551615`, which is port 1 on a 64-bit machine. It
  accepts exactly the texts of `Url.AcceptedPorts`.

## Model

| member | source | states |
|---|---|---|
| RouterProofs.ReachableSafe | src/xrsr.c:1094-1264 | After every run from a fresh router, between two main-loop steps: every call so far was in order; a machine that is not Disconnected belongs to the source that holds its group and no other source of the group runs; exactly Connecting, Connected, Established and Connection_Retry hold a timer, and one only; the read end is held exactly while a stream lives and equals the one cached by the group; `first_stream_req` is true exactly when nothing is cached; the socket is held exactly while the connection is up; no event is queued but possibly one late EOS_PIPE; Disconnecting is never a resting state |
| RouterProofs.ReachableCounts | src/xrsr_protocol_ws.c:816-1358 | At every moment of every run: session ends <= stream ends <= session starts <= session ends + 1; each read end is closed as often as opened, or once less; timers inserted exceed timers removed by at most one; no more keywords announced than keyword-info events; in Disconnected all these counts are equal |
| RouterProofs.AdvanceKeeps | src/xrsr.c:1094-1264 | One main-loop step of any kind (a message and the descriptor pass, a timer, a message from an application thread) keeps the router invariant under the guarantees of the environment |
| RouterProofs.BeginFindsDisconnected | src/xrsr.c:1688-1877 | A begin message is accepted exactly when its source is valid and its group is free, and then its machine is Disconnected: the "continue" and "invalid state" branches are dead |
| RouterProofs.ActiveInOwnGroup | src/xrsr.c:2761-2786 | A source is active exactly when its own group holds it, so no source is active in two groups |
| RouterProofs.BeginKeeps | src/xrsr.c:1688-1877 | A begin message keeps the router invariant, and what select reported before it is still fit to be handled after it |
| RouterProofs.ConfigKeeps | src/xrsr.c:2008-2189 | A config message keeps the router invariant |
| RouterProofs.TerminateReleases | src/xrsr.c:2271-2336 | Terminating an active source releases its group if and only if its machine had started; then the connection holds no timer, pipe, socket or message, and no other source or group changes |
| RouterProofs.TerminateGroupsReleases | src/xrsr.c:1495-1507 | The termination loop of a power-mode update releases exactly the groups, from the given one on, whose machine had started, and leaves the others as they were |
| RouterProofs.PowerModeReleases | src/xrsr.c:1490-1538 | Leaving full power disconnects every machine and releases exactly the groups whose machine had started; staying at full power ends nothing; in every mode every source has its new parameters afterwards |
| RouterProofs.HandleAllKeeps | src/xrsr.c:1223-1263 | The descriptor loop over all sources keeps the router invariant |
| RouterProofs.StillReportable | src/xrsr.c:1189-1263 | What select reported for the old state is handled after a message without reading a pipe that was not asked for |
| RouterOutcomes.SharedGroups | src/xrsr.c:2779-2786 | Two sources share a group unless the microphone tap has one of its own and is one of them |
| RouterOutcomes.BeginTakesGroup | src/xrsr.c:1826-1877 | A begin for a free group notes the kind of session, forgets an earlier minimum time and gives the group to the source; any other begin changes nothing |
| RouterOutcomes.ConfigOutcome | src/xrsr.c:2008-2189 | A config message starts the session of the source that holds the group if it carries its uuid, and touches nobody else; otherwise nothing changes |
| RouterOutcomes.AudioOutcome | src/xrsr.c:1565-1637 | A speech event reaches the connection of its source exactly while that is active, a stream error disconnects it, and nobody else is touched |
| RouterOutcomes.SessionUsesParams | src/xrsr_protocol_ws.c:351-394 | A session begun and configured after an update has its deadline, wait budget and check interval from the parameters its source then has |
| RouterOutcomes.ServedOnce | src/xrsr.c:1223-1263 | The descriptor loop serves every running source exactly once, with the result for it and its group that it would have alone: the sources before and after it do not matter, and the others stay as they are |
| RouterOutcomes.MessageFirst | src/xrsr.c:1206-1263 | A round handles its message before the descriptors: what the message disconnects is not served any more |
| RouterOutcomes.ExpiryServed | src/xrsr.c:1189-1205 | An expired timer is removed or rescheduled in the round in which it fires, and no other connection or group changes |
| RouterOutcomes.SendQueues | src/xrsr_protocol_ws.c:556-568 | A message from an application thread is queued last exactly while the connection is up and a slot is free, and nothing else changes |
| RouterGroups.ConfigStrands | src/xrsr.c:2156-2172 | A config message leaves its group held by a disconnected machine if and only if the audio stream could not be requested: the session end is called with the invalid source of the reset connection and does nothing |
| RouterGroups.StuckStays | src/xrsr.c:2191-2336 | No step but a config message for the group ends that: neither a terminate message nor a power-mode change, an audio error or a timer |
| RouterGroups.StuckForever | src/xrsr.c:1688-1723 | So for every later run without such a message the same source holds the group, its machine never runs, and every begin message for the group is refused |
| RouterGroups.StuckRefuses | src/xrsr.c:1695-1722 | A begin for a stuck group is ignored for its holder and refused as busy for the others |
| Monitor.SessionCounts | src/xrsr_protocol_ws.c:645-666 | In a call log in order the numbers of session starts, stream ends and session ends differ exactly by the phase the log is in |
| Monitor.PipeCounts | src/xrsr_protocol_ws.c:645-654 | In a call log in order every read end is closed as often as it was opened, or once less and is the one still held |
| Monitor.TimerCounts | src/xrsr_protocol_ws.c:910-1358 | In a call log in order at most one timer is outstanding, and it accounts for the difference of insertions and removals |
| Monitor.InOrderPrefixes | src/xrsr_protocol_ws.c:816-1358 | A log in order was in order at every earlier moment: the four counts are ordered on every prefix |
| Monitor.NothingSentWhileBlocked | src/xrsr_protocol_ws.c:245-331 | Judged by the bytes handed over and the bytes taken: between a frame or message that did not all go out and the next one sent, or audio read, there is a completed flush or the end of the session |
| Monitor.KeywordAnswers | src/xrsr_protocol_ws.c:295-342 | Every announced keyword answers a keyword-info event of the same session, that asked for no more bytes than are counted as sent, with none announced in between; the number announced is the sum of the bytes taken, in 32 bits, and at most the bytes read from the pipe |
| Monitor.KeywordCounts | src/xrsr_protocol_ws.c:336-341 | The keyword is announced at most once for each keyword-info event |
| WsInvariant.StepKeeps | src/xrsr_protocol_ws.c:807-814 | Every dispatched event keeps the invariant of a processing run: log, fields, session record and queue |
| WsInvariant.LeaveTied | src/xrsr_protocol_ws.c:816-1358 | Leaving any state on any event ends the stream exactly when the next state has none, and gives the timer back |
| WsInvariant.ExitTied | src/xrsr_protocol_ws.c:884-901 | What an exit handler does to the log, the fields and the session record |
| WsInvariant.EnterDisconnectedTied | src/xrsr_protocol_ws.c:816-841 | Entering Disconnected ends the session, releases the group and leaves nothing held |
| WsInvariant.PostsTied | src/xrsr_protocol_ws.c:852-868 | A handler that leaves something half done posts the event that finishes it, and none other; EOS_PIPE posts nothing |
| WsRuns.ProcessRests | src/xrsr_protocol_ws.c:807-814 | A processing run ends at rest, with an empty queue |
| WsRuns.QueueStaysShort | src/xrsr_protocol_ws.c:792-814 | The event queue is never more than two deep, so none of its five slots runs out and no event is lost |
| WsRuns.AtMostTwoPosted | src/xrsr_protocol_ws.c:807-814 | One outside event causes at most two internal ones |
| WsRuns.DeliverKeeps | src/xrsr_protocol_ws.c:807-814 | An outside event at rest leads to rest; the source and group are kept until the session ends, and its end releases the group with no stream open |
| WsRuns.TerminateLands | src/xrsr_protocol_ws_sm.h:62-226 | TERMINATE from any resting state lands in Disconnected within one processing run, with no timer, pipe, socket, pending bytes or message left |
| WsRuns.DrainsToDisconnected | src/xrsr_protocol_ws_sm.h:80-95 | Disconnecting always goes on to Disconnected in the same run |
| WsRuns.HandleFdsKeeps | src/xrsr_protocol_ws.c:238-343 | A pass over the descriptors keeps a connection at rest, whatever the library calls return |
| WsRuns.ReadPendingKeeps | src/xrsr_protocol_ws.c:518-629 | Reading a message, with the application closing or a remote event, keeps a connection at rest; a connection that is up only stays up unchanged or ends |
| WsRuns.WritePassKeeps | src/xrsr_protocol_ws.c:245-294 | The write pass keeps the invariant and goes on to the audio pipe only with nothing pending |
| WsRuns.SendFrameKeeps | src/xrsr_protocol_ws.c:312-335 | Sending a frame keeps the invariant: pending exactly while the log shows an unfinished frame, and the counter is the sum of the bytes taken and never exceeds the bytes read |
| WsRuns.FlushRetryKeeps | src/xrsr_protocol_ws.c:250-257 | An incomplete flush keeps the invariant, the one that ends the session included |
| WsOutcomes.EventOutcome | src/xrsr_protocol_ws.c:816-1358 | For every resting state and every outside event, without tables, handlers or posted events: the state the connection comes to rest in and, call by call, what the application, the library and the timers see on the way, with reasons, timer values and order; after the end of a session nothing is held and the group is free, otherwise exactly the stated fields change; a disconnected machine ignores every event but a begin |
| WsOutcomes.LateEosPipeOutcome | src/xrsr_protocol_ws.c:518-553 | An event that finds a remote end still queued reacts as after the end of the stream |
| WsOutcomes.ConfigureOutcome | src/xrsr_protocol_ws.c:351-409 | A configured session buffers its audio exactly if there is a minimum time, it is spoken and the minimum was not reached yet, and otherwise attempts to connect at once; its deadline and wait budget come from the parameters and its counters start at zero; without a stream no session starts |
| WsPasses.WantedExactly | src/xrsr_protocol_ws.c:214-236 | A connection that is up wants to read; it wants to write exactly while a frame is unfinished or a message waits, and audio exactly while its stream lives and no frame is unfinished |
| WsPasses.FrameOutcome | src/xrsr_protocol_ws.c:312-335 | An audio frame that would block or goes out in part leaves the connection pending, one that goes out whole does not, and the counter grows by exactly the bytes taken; a failure raises an error, after the close callback if the library ran that, and counts nothing |
| WsPasses.TextOutcome | src/xrsr_protocol_ws.c:266-293 | The oldest message leaves its slot and is handed over whole; the connection is pending afterwards, and the pass stops, exactly when it did not all go out |
| WsPasses.WriteOutcome | src/xrsr_protocol_ws.c:245-294 | Pending bytes go before a message; the pass stops as long as they are not out, and once they are goes on to the message that waits |
| WsPasses.KeywordAnnounced | src/xrsr_protocol_ws.c:336-341 | After a frame no keyword-info event of a running session is left unanswered whose bytes are counted, and the answer carries the count |
| WsPasses.AudioEndOutcome | src/xrsr_protocol_ws.c:299-311 | End of file ends the stream as complete and a read error as failed, and the session waits in Established with its inactivity timer |
| WsPasses.CloseAskedEnds | src/xrsr_protocol_ws.c:616-618 | A message for which the application asks to close puts the timer off, hangs up and ends an established session with end of speech, with the group free |
| WsPasses.ReadOutcome | src/xrsr_protocol_ws.c:518-643 | A close by the peer ends the session for the reason its state and close status give; a message leaves a streaming session as it is, ends an established one exactly if the application asks for it, and leaves EOS_PIPE queued exactly for a remote end |
| WsPasses.SpeechOutcome | src/xrsr_protocol_ws.c:679-705 | End of speech and the minimum time react as their events, the minimum time is remembered even before the session is configured, and keyword information arms the notification and nothing else |
| WsPasses.MinimumStartsAttempt | src/xrsr_protocol_ws.c:919-935 | The minimum stream time takes a buffering session to a connection with its check timer, to a retry before the deadline, or to its end as a connect failure past it |
| WsPasses.PassInOrder | src/xrsr_protocol_ws.c:238-343 | With everything ready: after a close nothing is sent, after an unfinished message no audio is read, and otherwise the message goes before the frame |
| WsInputs.ConfigureKeeps | src/xrsr.c:2098-2175 | Starting a session keeps the invariant; it then runs for its source, or the group was released, or the audio layer refused and the group is still held |
| WsInputs.ApplyKeeps | src/xrsr_protocol_ws.c:207-814 | Whatever the main loop does to a connection at rest, it is at rest afterwards |
| WsReasons.ReportsItsReason | src/xrsr_protocol_ws.c:825-1358 | A session that ends on an event is reported with the reason that belongs to that event and state, and the machine is then Disconnected |
| RouterReasons.NoStaleReasons | src/xrsr_protocol_ws.c:825-835 | Two routers that differ only in the reasons recorded in their connections have the same runs and show the same logs in them, over any number of sessions, power modes and parameters: no reason left by an earlier session is ever reported |
| RouterReasons.RemoteReasonsAreDead | src/xrsr_protocol_ws.c:623-628 | A router without the two assignments that record reasons for a remote message takes the same steps and shows the same logs over every run |
| RouterReasons.RecordingChangesNothing | src/xrsr_protocol_ws.c:623-628 | From a fresh router: for every run there is one without those assignments, step for step, with the same log of every connection |
| RouterReasons.TwinAdvance | src/xrsr.c:1094-1264 | One main-loop step of any kind keeps two routers differing only in recorded reasons |
| WsUnbegun.EndsUnbegun | src/xrsr.c:2706-2724 | At the exit of a state, the end of a stream that was not reported to begin is reported exactly for (Buffering, EOS), (Connected, WS_CLOSE) and (Connection_Retry, TERMINATE) |
| WsUnbegun.UnbegunDeliver | src/xrsr_protocol_ws.c:807-814 | A whole processing run adds one such end exactly for these three pairs, whatever it goes on to post |
| WsUnbegun.UnbegunFds | src/xrsr_protocol_ws.c:238-343 | A pass over the descriptors never adds one |
| RouterUnbegun.UnbegunExactly | src/xrsr.c:1094-1264 | Over every run of the router the application hears of an end without a begin exactly once for each step that ends buffered audio or terminates a session - by message, stream error or power mode - between two attempts, and never otherwise |
| RouterUnbegun.BufferedEndsSilently | src/xrsr_protocol_ws.c:884-901 | Every fresh router has a run in which the first of these happens |
| RouterUnbegun.RetryEndsSilently | src/xrsr_protocol_ws.c:1336-1352 | ... and, with a session timeout above zero, one in which the second does |
| WsFlushes.EndsOnSixth | src/xrsr_protocol_ws.c:250-257 | A streaming session with pending bytes and nothing queued has ended after n further incomplete flushes in a row if and only if they make six in a row - or five, for a session that carries one over from before it started |
| WsFlushes.SixthFlush | src/xrsr_protocol_ws.c:250-260 | While streaming, an incomplete flush within that number changes neither state nor queue; the one beyond it ends the session with a send error - unless an EOS_PIPE is waiting, which only ends the stream, and the error is ignored |
| WsFlushes.CloseLeavesOne | src/xrsr_protocol_ws.c:249-257 | When the peer closes during a flush, the close callback ends the session first and the flush is counted afterwards: the machine rests in Disconnected with its counter at one |
| WsFlushes.StartInherits | src/xrsr_protocol_ws.c:351-393 | Starting a session keeps the counter, so it survives one flush fewer exactly when the counter was one |
| Monitor.InheritedUntilFlushed | src/xrsr_protocol_ws.c:258-264 | Within a session a flush carried over counts exactly as long as no flush was completed since its start |
| WsReasons.TwinDispatch | src/xrsr_protocol_ws.c:816-1358 | Dispatching an event to two connections that differ only in stale reasons leaves them differing only in that |
| WsReasons.AlikeFds | src/xrsr_protocol_ws.c:238-343 | So does a pass over the descriptors |
| WsProgress.EveryAttemptEnds | src/xrsr_protocol_ws.c:919-1051 | From the start of a session, while the connection still attempts to connect, its timer has expired at most 2b + 2 + 2 * session timeout times, b being ceil(connect timeout / check interval); a check interval was taken out of the budget at most b times in Connecting over all its visits and at most b times again in Connected; the wait counter is in (-interval, timeout] |
| WsProgress.InputProgress | src/xrsr_protocol_ws.c:919-1051 | No input lets the rank of an attempt grow, and every expiry of its timer makes it smaller, given a clock that moves on between expiries |
| WsProgress.AttemptsEnd | src/xrsr_protocol_ws.c:919-1051 | Over any run of inputs under which the connection keeps attempting, the expiries are bounded by the rank and the reschedules by the reserve at its start |
| WsProgress.AttemptStarts | src/xrsr_protocol_ws.c:361-394 | A new session starts with both budgets full and the whole session timeout ahead |
| WsProgress.IntervalsCeil | src/xrsr_protocol_ws.c:952-960 | The number of check intervals a wait lasts is the ceiling of the quotient |
| WsTimers.DelayExact | src/xrsr_protocol_ws.c:1315-1320 | The retry delay is the base times a random number below 2^n, for every random number, if and only if base * (2^n - 1) fits in 32 bits |
| WsTimers.DelayBounded | src/xrsr_protocol_ws.c:1315-1320 | With at most 18 retries and a base of at most 10000 ms no 32-bit step wraps and the delay is at most base * (2^n - 1) |
| WsTimers.DelayWraps | src/xrsr_protocol_ws.c:1315-1320 | With 19 retries it can wrap |
| WsTimers.RetriedBeforeDeadline | src/xrsr_protocol_ws.c:919-927 | A retry is posted only before the session deadline, and giving up only from then on |
| WsTimers.RetryTimer | src/xrsr_protocol_ws.c:1315-1332 | The retry timer expires after the random delay and never after the deadline, and one more retry is counted |
| WsTimers.FiredTimerIsServed | src/xrsr_protocol_ws.c:345-349 | A timer that fired is removed or rescheduled by its own timeout event, in the same processing run |
| MsgOut.MsgSlots.Queue | src/xrsr_protocol_ws.c:707-723 | Queues the message up to its first NUL if one of five slots is free and memory was there, else changes nothing |
| MsgOut.MsgSlots.Get | src/xrsr_protocol_ws.c:733-758 | Hands out the oldest message and moves the others up by the shifting loop; slots below the count are full, the rest NULL |
| MsgOut.MsgSlots.Clear | src/xrsr_protocol_ws.c:760-771 | Empties every slot |
| MsgOut.MsgSlots.IsMsgOut | src/xrsr_protocol_ws.c:725-731 | True exactly when a message is queued |
| MsgOut.CStringWhole | src/xrsr_protocol_ws.c:716 | A message is taken whole exactly when it holds no NUL |
| MsgOutThreads.FirstInFirstOut | src/xrsr_protocol_ws.c:707-771 | Under every interleaving of sender threads and the main loop: accepted messages are what has gone, in that order, then what is still there; never more than five; a get after a true is_msg_out finds a message |
| MsgOutThreads.QueuedWhole | src/xrsr_protocol_ws.c:707-723 | A message without NUL is queued whole, behind the others |
| MsgOutThreads.StaleExactly | src/xrsr_protocol_ws.c:556-568 | After a reset, a message of an earlier session can be delivered in the next one if and only if some sender stood between its state check and its enqueue while the slots were cleared |
| MsgOutThreads.CaughtLeaks | src/xrsr_protocol_ws.c:556-568 | The run in which that happens |
| WsConnection.Connection.ExitState | src/xrsr_protocol_ws.c:816-1358 | ACT_EXIT of every state, written out handler by handler, has exactly the effect that LeaveTied speaks about |
| WsConnection.Connection.EnterState | src/xrsr_protocol_ws.c:816-1358 | ACT_ENTER of every state has exactly the effect, and posts exactly the event, that PostsTied speaks about |
| WsConnection.Connection.ProcessEvents | src/xrsr_protocol_ws.c:807-814 | The event loop takes the events first in, first out until the queue is empty; from the invariant of a processing run it comes to rest |
| WsConnection.Connection.Raise | src/xrsr_protocol_ws.c:807-814 | xrsr_ws_event from outside the handlers: a connection at rest comes to rest with exactly the state and calls that EventOutcome gives, and the session keeps its source and group until it ends |
| WsConnection.Connection.Terminate | src/xrsr_protocol_ws.c:475-486 | From rest to rest, with no timer, pipe, socket, pending bytes or message left |
| WsConnection.Connection.ProcessTimeout | src/xrsr_protocol_ws.c:345-349 | The timer callback; at rest the timer that fired is removed or rescheduled |
| WsConnection.Connection.FdSet | src/xrsr_protocol_ws.c:214-236 | Asks for the socket, for writing only with something to send, and for the pipe only with nothing pending; nfds stays one above the largest descriptor |
| WsConnection.Connection.CloseCallback | src/xrsr_protocol_ws.c:631-643 | The close callback records the status and raises WS_CLOSE; from rest to rest |
| WsConnection.Connection.Receive | src/xrsr_protocol_ws.c:518-629 | From rest to rest; an established session ends with end of speech, its group free, when the application asks to close |
| WsConnection.Connection.CountRetry | src/xrsr_protocol_ws.c:250-257 | An incomplete flush is counted in eight bits; it ends a streaming session with nothing queued exactly when the incomplete flushes in a row are as many as the session survives |
| WsConnection.Connection.HandleWrite | src/xrsr_protocol_ws.c:245-294 | Pending bytes go first, then the oldest message; a connection that is up comes to rest, and audio follows only with nothing pending |
| WsConnection.Connection.SendMessage | src/xrsr_protocol_ws.c:266-293 | The oldest message leaves its slot; pending bytes are noted, and the pass stops, exactly when it did not all go out |
| WsConnection.Connection.SendAudio | src/xrsr_protocol_ws.c:312-335 | One frame: pending bytes are noted exactly when the library did not take all of it, and the counter grows by what it took |
| WsConnection.Connection.HandleAudio | src/xrsr_protocol_ws.c:297-342 | After a frame no keyword-info event of a running session is left unanswered whose bytes are counted |
| WsConnection.Connection.HandleDescriptors | src/xrsr_protocol_ws.c:238-343 | Reading, writing and audio in this order, each only for a descriptor still held; from rest to rest whatever the library calls return, and the session keeps its source and group until it ends |
| WsConnection.Connection.HandleSpeech | src/xrsr_protocol_ws.c:679-705 | End of speech and minimum stream time raise their events, keyword information only arms the notification; from rest to rest |
| WsConnection.Connection.QueueMessage | src/xrsr_protocol_ws.c:556-568 | Refused unless established, 0 without a free slot or memory, else the message up to its first NUL is queued behind the others; from rest to rest |
| WsConnection.Connection.RequestStream | src/xrsr.c:2547-2663 | The first request opens the pipe, later ones get the cached read end, a refused one leaves nothing open |
| WsConnection.Connection.ConfigureSession | src/xrsr.c:2156-2172 | A configured session leads from rest to rest with exactly the state and calls that ConfigureOutcome gives; a refused stream leaves the source holding the group with its machine disconnected |
| RouterMachine.Router.IsSourceActive | src/xrsr.c:2761-2769 | The loop finds a group that the source holds exactly when there is one |
| RouterMachine.Router.SessionBegin | src/xrsr.c:1688-1877 | Refused for an invalid or active source and for a held group; a source whose group was free holds it afterwards, with its machine disconnected, the kind of session noted and no minimum time remembered; the router invariant is kept |
| RouterMachine.Router.SessionConfigIn | src/xrsr.c:2008-2189 | Acts on the source that holds the group of the message, and only with its uuid; no other source or group changes; the router invariant is kept |
| RouterMachine.Router.SessionTerminate | src/xrsr.c:2271-2336 | A source whose machine had started is disconnected afterwards and its group is free; no other source or group changes; the router invariant is kept |
| RouterMachine.Router.AudioMessage | src/xrsr.c:1565-1637 | Keyword information for an active source arms its notification, a stream error leaves it disconnected; the router invariant is kept |
| RouterMachine.Router.PowerModeUpdate | src/xrsr.c:1490-1538 | In every mode every connection has its new parameters afterwards; unless the mode is full, every machine is disconnected; the router invariant is kept |
| RouterMachine.Router.HandleMessage | src/xrsr.c:1206-1221 | Each of the five messages that drive sessions reaches its handler with its own arguments, and keeps the router invariant |
| RouterMachine.Router.HandleAllDescriptors | src/xrsr.c:1223-1263 | The loop serves every source that is not disconnected, each in the router the earlier ones left, and keeps the router invariant |
| RouterMachine.Router.Round | src/xrsr.c:1094-1264 | A round in which select reported descriptors handles the message first and then the descriptors; under the guarantees of the environment it keeps the router invariant |
| RouterMachine.Router.TimerRound | src/xrsr.c:1189-1205 | The timer that expired is removed or rescheduled in this round, and the router invariant is kept |
| SelectSets.Collect | src/xrsr.c:1114-1169 | The descriptor sets before select are the message queue and exactly what the websocket and HTTP connections of all routes want, and nfds is one more than the largest of them all |
| HttpProofs.SessionContract | src/xrsr_protocol_http.c:710-953 | Over every run - any number of sessions, spoken or by text - and at every moment of it: one stream end and then one session end for each session, and no second response timer. Between steps the machine never rests in Connecting and holds the timer exactly in Connected; every accepted begin has had its session or still waits for its configuration; the group is held exactly then and while a session runs, by the source that runs |
| HttpProofs.TextAfterSpoken | src/xrsr.c:1766-1776 | A run in which a spoken session starts and ends and a session by text is then under way |
| HttpProofs.ProcessReleases | src/xrsr.c:2191-2270 | A processing run that takes a session to Disconnected leaves the group free |
| HttpOutcomes.EventOutcome | src/xrsr_protocol_http.c:710-953 | For every resting state and every outside event, without tables, handlers or posted events: the state the connection comes to rest in and the calls on the way, with reasons, timer values and order; after the end of a session no timer is left and the group is free; a disconnected machine ignores every event but a begin |
| HttpOutcomes.BeginOutcome | src/xrsr.c:1719-1776 | A begin for a free group finds the machine disconnected, gives the group to its source and notes the kind of session; any other begin changes nothing |
| HttpOutcomes.ConnectOutcome | src/xrsr_protocol_http.c:452-458 | A session that starts buffers its audio exactly if it is deferred; otherwise it is streaming, or in its text state, or over as a connect failure |
| HttpOutcomes.AnswerEnds | src/xrsr_protocol_http.c:601 | A finished transfer ends the session in Connected, Streaming and the text state, as end of speech, connect failure and end of text; the group is free and no timer is left |
| HttpOutcomes.AnswerTimesOut | src/xrsr_protocol_http.c:460-464 | The end of the pipe ends the stream and gives the answer ten seconds; when they are over the session ends as timed out, with the group free |
| HttpOutcomes.MinimumEndsBuffering | src/xrsr_protocol_http.c:614-630 | The minimum stream time ends the buffering: audio or text is sent, or the session is over as a connect failure |
| HttpProofs.StepKeeps | src/xrsr_protocol_http_sm.h:45-154 | Every dispatched event keeps the invariant of a processing run |
| HttpProofs.ApplyKeeps | src/xrsr_protocol_http.c:701-708 | Every input leads from rest to rest |
| HttpProofs.TerminateLands | src/xrsr_protocol_http.c:608-612 | TERMINATE at rest ends every running session as terminated and frees its group |
| HttpConnection.HttpState.ExitState | src/xrsr_protocol_http.c:740-953 | The stream ends on every event that leads to Connected or Disconnected, with the reason of the event; the response timer is given back |
| HttpConnection.HttpState.EnterState | src/xrsr_protocol_http.c:710-953 | Disconnected reports, ends and resets; Connecting posts its outcome; Connected inserts the response timer; Streaming reports the stream and switches a text session |
| HttpConnection.HttpState.ProcessEvents | src/xrsr_protocol_http.c:701-708 | The event loop is the processing run of the model |
| HttpConnection.HttpState.BeginSession | src/xrsr.c:1719-1776 | The group is taken only while nobody holds it, and the machine that then waits for its configuration is disconnected; from rest to rest |
| HttpConnection.HttpState.Raise | src/xrsr_protocol_http.c:701-708 | xrsr_http_event from outside the handlers: from rest to rest with exactly the state and calls that EventOutcome gives |
| HttpConnection.HttpState.ConnectSession | src/xrsr_protocol_http.c:452-458 | The source is stored before the begin event; afterwards the session buffers if it is deferred, streams or is in its text state, or is over with the group free |
| HttpConnection.HttpState.Terminate | src/xrsr_protocol_http.c:608-612 | From rest it ends every running session as terminated, frees the group and leaves no timer |
| HttpFds.CurlFds.constructor | src/xrsr_protocol_http.c:276-279 | Cleared arrays stand for no socket |
| HttpFds.CurlFds.FdAdd | src/xrsr_protocol_http.c:59-73 | The first free slot is taken; a full array drops the descriptor |
| HttpFds.CurlFds.FdRemove | src/xrsr_protocol_http.c:75-83 | Every occurrence is removed |
| HttpFds.CurlFds.FdClear | src/xrsr_protocol_http.c:85-91 | Every slot is freed |
| HttpFds.CurlFds.SocketFunction | src/xrsr_protocol_http.c:167-202 | The arrays follow curl's wish if and only if no direction then has more than five sockets |
| HttpFds.CurlFds.FdSet | src/xrsr_protocol_http.c:512-538 | Exactly the recorded sockets are watched, and nfds stays one above the largest descriptor of both sets |
| HttpFds.WishIs | src/xrsr_protocol_http.c:167-202 | A callback has its socket watched in just the directions it names, and touches no other socket |
| HttpFds.CallbacksRecorded | src/xrsr_protocol_http.c:167-202 | After any sequence of callbacks with at most five sockets in each direction the arrays stand for exactly the map asked for, without duplicates |
| HttpFds.SocketRecorded | src/xrsr_protocol_http.c:167-202 | One callback is recorded exactly when no direction then has more than five sockets |
| HttpFds.FreeMeansRoom | src/xrsr_protocol_http.c:59-73 | An array without duplicates has a free slot exactly when it holds fewer than five sockets |
| Url.ParsePrint | src/xrsr_utils.c:289-400 | For every accepted URL, printing its scheme, user, host, port and path gives back the whole text |
| Url.PrintParse | src/xrsr_utils.c:289-400 | Parsing a printed well-formed target gives the target back exactly when its port text is a port |
| Url.AcceptedPorts | src/xrsr_utils.c:366-381 | For every port text: it is accepted exactly when its sign and its first run of digits, after white space, make a number up to 65535, a negative zero, or a negative number that wraps around to 65535 or less; and the port is that number |
| Url.NumeralPorts | src/xrsr_utils.c:366-381 | A decimal numeral is accepted exactly up to 65535 and means its value |
| Url.OnlyNumeralsAccepted | src/xrsr_utils.c:366-381 | That only numerals up to 65535 are accepted holds exactly for numerals and for texts whose sign and first digits make no such number |
| Url.OddPorts | src/xrsr_utils.c:366-381 | Accepted texts that are no numerals: an empty port, a number with white space, a plus sign and trailing text, and a negative number that wraps around |
| Url.SchemeLeads | src/xrsr_utils.c:289-316 | The five schemes are told apart |
| Url.KnownSchemes | src/xrsr_utils.c:291-316 | Exactly the five schemes are known, each by its own text |
| UrlBuffer.Parse | src/xrsr_utils.c:261-400 | The in-place parser succeeds exactly on the URLs that have pieces, allocates once, writes only inside that allocation, and the offsets it returns denote the pieces, the port number and the three flags; without a port it is 443 for wss and https and 80 for the others |
| UrlBuffer.CutUser | src/xrsr_utils.c:355-364 | The first @ ends the user |
| UrlBuffer.CutPort | src/xrsr_utils.c:365-368 | The first : after it ends the host |
| UrlBuffer.Copy | src/xrsr_utils.c:318-337 | One allocation holds the URL, its authority again, and room for a default port |
| Query.Merge | src/xrsr.c:2122-2149 | Whatever strings the application gave, and however many, the merged list is the first 24 of the preset strings followed by them, ended by NULL inside its array; what follows the list in the message is never taken for a string |
| Query.ConfigMessage.Fill | src/xrsr.c:1980-1999 | The message holds the first 24 strings; its closing NULL is written past the list, onto the keyword fields, exactly for 24 strings or more, and these fields have their own values afterwards |
| Query.LocateEnd | src/xrsr.c:2122-2132 | The end of the preset list is found at its NULL or at 24 strings |
| Query.WsUrl | src/xrsr_protocol_ws.c:367-386 | The URL is the base, the separator and the strings joined by &, cut to its first 2047 characters |
| Query.HttpUrl | src/xrsr_protocol_http.c:414-433 | The same for HTTP, which leaves the separator out behind a bare question mark |
| Query.HttpParams | src/xrsr_protocol_http.c:414-433 | What a server reads behind the first question mark are the parameters of the route and then the strings given, whether the route has none, a bare question mark or some |
| Query.WsParams | src/xrsr_protocol_ws.c:370-386 | The same for the websocket URL, except that behind a bare question mark an empty parameter comes first |
| AudioFormats.GroupFits | src/xrsr_xraudio.c:591 | A number of frames fits in 4096 bytes exactly up to the quotient |
| AudioFormats.RequestedIsNegotiated | src/xrsr.c:2612-2629 | The format asked of the audio layer classifies as the negotiated one for every source format and destination, if and only if default samples are at most two bytes on at most one channel and the largest ones exceed both |
| AudioFormats.OwnFormatFirst | src/xrsr.c:2612-2629 | A source whose own format the destination supports is never converted: that format is negotiated and the audio layer is asked for its own encoding and rate, for compressed audio unchanged; PCM takes the place of another format only where that is none or unsupported |
| AudioFormats.NegotiatedIsSupported | src/xrsr.c:2750-2759 | The negotiated format is one the destination supports, and there is none exactly when it supports neither the source format nor PCM; which one it is, OwnFormatFirst says |
| AudioFormats.FrameUndercount | src/xrsr.c:2633-2642 | For up to a million bytes per second the two truncating divisions lose at most one byte of an external frame, and none exactly when the first one, of the duration, is exact |
| AudioFormats.GroupIsLargest | src/xrsr_xraudio.c:591-596 | With normal latency the frame group is the largest one that fits in 4096 bytes, up to its bounds |
| AudioFormats.NoGroupExactly | src/xrsr_xraudio.c:583-591 | The division has no result exactly with normal latency and a decoded or standard format of which less than a byte passes in a frame; the fixed size of other external inputs and low latency are safe |

## Left out

- The audio object of `src/xrsr_xraudio.c` (device, detector and stream states), privacy mode, file capture, statistics, logging, configuration files and thread start-up: plumbing that would only add easy members.
- The SDT machine: a stub copy of the websocket machine.
- HTTP connections inside the composed router: the HTTP machine is proved against the same session contract on its own, with its group.
- HTTP pipe descriptors, curl handles and reference counts: the descriptor is stored only after the connect call (`src/xrsr.c:2086-2093`), so the conservation of read ends is claimed for websockets only.
- The HTTP paths on which `xrsr_http_connect` fails before its begin event: sessions of the model start with that event.
- Route updates and the final termination of all connections.
- The keyword-detect-error message (`src/xrsr.c:1649-1673`), which reads its message as one of another type.
- The life of the connection object inside the websocket library, fragmented messages and message payloads: a fragment is an input that does nothing.
- WsConnection.Connection.EnterRetry: the shift by the retry count is taken modulo its 32-bit width, because the original shift is undefined beyond it; the delay lemmas stay below it.
- WsProgress.EveryAttemptEnds: does not cover a change of the connection parameters during an attempt, nor a check interval of zero, for which the wait never ends.
- MsgOutThreads.FirstInFirstOut: threads are interleaved by whole critical sections; the semaphore itself is assumed to work.
- RouterMachine.Router.AudioMessage: the device is closed and requested again around a stream error (`src/xrsr.c:1585-1600`); the audio object is not part of this model.
- RouterMachine.Router.HandleMessage: of the handler table only the five messages that drive sessions are dispatched; the others are named in the lines above.
- SelectSets.Collect: the SDT routes of the same loop are absent with their machine.
- Url.PrintParse: percent-decoding and bracketed IPv6 hosts are left out, because the code does not handle the latter and the former is taken as the identity.
