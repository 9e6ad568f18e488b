# Verified model of the video-alarm back end

This project models the protocols, the wire codec and the exact arithmetic of the video-alarm
back end (a Go server and a Python analysis service) and proves properties of them for all inputs
and all runs. `dafny verify dfyconfig.toml` checks everything.

| files | what they model |
|---|---|
| `AlarmClipTables`, `AlarmClipProtocol`, `AlarmClipWindows`, `AlarmClipRuntime`, `AlarmClipDeadlines`, `AlarmClipTimers` | alarm-clip sessions: transactions interleaved with the finalizer's statements, what their time fields promise, timers, startup recovery |
| `Text`, `SipMessage`, `SipParsing`, `SipRequests`, `SipResponses`, `SipFraming` | the hand-written SIP printers and parsers and the TCP framer (RFC 3261, sections 7, 8.2.6.2, 18.3 and 20.14) |
| `Coalescer` | the running/pending single-flight workers of pull self-healing and GB28181 invites |
| `TestJobRows`, `TestJobProtocol` | the concurrent test-job executor with two semaphores, retry rounds and racing status refreshes |
| `SequentialJobs` | its sequential cousins: patrol jobs and draft test jobs |
| `AnalysisConfig`, `FrameAnalysis`, `FrameLaws`, `FrameTasks`, `GateMemory` | per-frame analysis, the second copy for single images, and the memory that gates the large model |
| `UsageLedger`, `Dashboard` | the token-usage tables and the dashboard statistics derived from raw rows |
| `Letterbox`, `Notification`, `AreaTree`, `Wrappers` | detector coordinates, notification suppression, the area listing, Option and Result |

Protocols are state machines whose steps are the atomic actions of the code (a transaction, a
single statement, a locked section, a semaphore operation); results about them are invariants over
all runs, bounds on the length of runs and exact characterisations. Code that updates state in
place is a class whose methods are tied to the functions those results speak about.

Where a stronger statement is false of the code, the project keeps the code as it is, proves the
exact condition and gives a concrete run or input:

- the finalizer loads the session row before it marks it closing, so its window may miss an alarm
  that commits in between (`WindowCoversIff`, `StaleWindowExample`);
- on three branches it discards the error of the event update, so events of a failed session can
  stay unready (`DeliveredIff`, `SkippedUpdateExample`), contrary to docs/backend-api-v1.md:115;
- an alarm reads its clock before its transaction, so it may join a session that starts after its
  own pre-roll (`IntervalInsideIff`, `SlowAlarmExample`);
- a source has one timer but may have several recording sessions, and the timer ends only the one not
  outrun by an alarm after its hard deadline (`ServedIff`, `OutrunStays`, `OrphanExample`);
- a finalizer cancels by source, so it may take the timer of the next session
  (`TimerIff`, `LostByCancelIff`, `TakenTimerExample`), also during recovery (`KeptTimerIff`,
  `LostTimerExample`); and timer numbers restart after a deletion (`CallbackIsCurrentIff`);
- the framer honours two spellings of Content-Length only, although the parser and RFC 3261 ignore
  case and white space before the colon (`SpellingsIff`);
- two devices share channel keys exactly when one id extends the other with a slash (`KeysClashIff`,
  `ClashExample`), never when both are registered (`RegisteredKeysAreDistinct`); an id with a slash can
  only come from the automatic invite (internal/server/zlm_webhook.go:704-709), which takes it from a
  row's `gb_device_id` setting or from a parent row's stream id
  (internal/server/devices.go:2210-2225) and, unlike the preview (devices.go:2167), does not match it
  against the pattern;
- a stale refresh may turn a completed job row back to running, exactly while a worker holds counts
  read too early (`EndedStaysIff`, `StaleRefreshExample`);
- a failed query lets an alarm be notified within the cycle of another one (`SpacedIff`,
  `FailedQueryExample`);
- a draft image that cannot be read, and almost every failed draft video, is recorded as a success
  (`DraftImageIff`, `DraftVideoIff`);
- the log of usage calls and its tables are not written in one transaction (`RecordConsistentIff`,
  `DriftStays`);
- a failed large-model call silences an algorithm like an answered one, until a frame differs from the
  one it was made for (`AskedIff`, `FailedCallSilences`, `SilencedExample`);
- an area update checks its new parent for being the area itself only, so the area may drop out of
  the listing (`MovedIsListedIff`, `MoveBelowItself`).

Two more places where documentation and code differ, and the code is followed:
docs/architecture.md:187 describes batch tests as sequential, while the executor runs up to five at
a time; docs/algorithm-test.md:66 speaks of one retry round, while the code takes the number from
the configuration.

## Model

| member | source | states |
|---|---|---|
| `AlarmClipTables.AllEventsAttached` | internal/server/alarm_clip_runtime.go:1124-1148 | an alarm attaches every one of its events to the session it joins, resets their rows to that session without a clip, and changes no other relation or event |
| `AlarmClipTables.SessionJoined` | internal/server/alarm_clip_runtime.go:1070-1122 | the session joined is the active one, with a later end and this alarm's time, when the alarm comes before its hard deadline, and else a new one that starts now, without a clip and with the first event as its anchor; no other row changes |
| `AlarmClipTables.SecondsMean` | internal/server/alarm_clip_runtime.go:1029-1053 | an alarm's lead and trail are kept between 1 and 600 seconds, drawn to 600 when longer, and the configured ones without them |
| `AlarmClipProtocol.ClipsAreDelivered` | internal/server/alarm_clip_runtime.go:1267-1423 | after any interleaving of start-or-extend transactions with the finalizer's statements, failed writes and crashes included, an event naming a closed, closed_empty or failed session is ready with exactly that session's path and files, unless the last event update of that session failed and its error was discarded; an event naming another session is attached to that one too |
| `AlarmClipProtocol.DeliveredIff` | internal/server/alarm_clip_runtime.go:1267-1423 | after every run the events naming a finished session carry exactly its result if and only if there is none or the last successful event update of that session wrote that same path and files |
| `AlarmClipProtocol.SuccessfulUpdatesDeliver` | internal/server/alarm_clip_runtime.go:1338-1382 | when no event update fails with its error discarded, the events of every finished session carry exactly its result |
| `AlarmClipProtocol.WrittenStep` | internal/server/alarm_clip_runtime.go:1338-1423 | what the events of a session show, the last successful update or nothing yet, is kept true by every step |
| `AlarmClipProtocol.FinalizerMissesNoEvent` | internal/server/alarm_clip_runtime.go:1301-1314 | from the moment it has read the relations, the finalizer's event list is exactly the events attached to its session, whatever alarms commit meanwhile |
| `AlarmClipProtocol.AttachKeepsOthers` | internal/server/alarm_clip_runtime.go:1078-1148 | an alarm never changes the row, the relations or the events of a session that is no longer recording |
| `AlarmClipProtocol.FinalizerStep` | internal/server/alarm_clip_runtime.go:1267-1394 | what the finalizer knows between two of its statements (row closing, event list complete, events delivered) survives every step of anyone |
| `AlarmClipProtocol.LinksStep` | internal/server/alarm_clip_runtime.go:1127-1148 | event rows and relation rows stay linked: an event names a session only if the relation exists, and an attached event names some session |
| `AlarmClipProtocol.ClipsStep` | internal/server/alarm_clip_runtime.go:1316-1382 | delivery to the events of finished sessions is kept by every step |
| `AlarmClipProtocol.TerminalIsAbsorbing` | internal/server/alarm_clip_runtime.go:1285-1287 | closed, closed_empty and failed are final: no step changes such a session's row |
| `AlarmClipProtocol.CloseSaysWhy` | internal/server/alarm_clip_runtime.go:1338-1394 | a session ends closed exactly when clip files were copied, closed_empty exactly when there were none or no source, failed exactly when collecting or copying failed; a closed one carries exactly the copied path and files, any other none |
| `AlarmClipProtocol.ClipRowsStep` | internal/server/alarm_clip_runtime.go:1338-1394 | only closed sessions carry a clip, kept by every step |
| `AlarmClipProtocol.TimesStep` | internal/server/alarm_clip_runtime.go:1086-1122 | StartedAt <= ExpectedEnd <= HardDeadline = StartedAt + max, kept by every step |
| `AlarmClipProtocol.ArrivalsStep` | internal/server/alarm_clip_runtime.go:1108-1122 | ExpectedEnd stays the latest end any alarm of the session asked for |
| `AlarmClipProtocol.RunKeepsInv` | internal/server/alarm_clip_runtime.go:1027-1394 | the whole invariant holds after every run |
| `AlarmClipProtocol.ExpectedEndIsLatestWanted` | internal/server/alarm_clip_runtime.go:1081-1122 | on every run ExpectedEnd is at least what each alarm wants, min(t + post, HardDeadline), and equals what one of them wants |
| `AlarmClipProtocol.ExpectedEndNeverDecreases` | internal/server/alarm_clip_runtime.go:1108-1117 | no step shortens a session |
| `AlarmClipProtocol.StaleWindowExample` | internal/server/alarm_clip_runtime.go:1276-1296 | a run in which an attached alarm's interval is not covered, because the row is loaded before it is marked closing |
| `AlarmClipProtocol.SkippedUpdateExample` | internal/server/alarm_clip_runtime.go:1338-1349 | a run in which a failed session's event stays unready, because the error of its update is discarded |
| `AlarmClipProtocol.SlowAlarmExample` | internal/server/alarm_clip_runtime.go:1055-1107 | a run in which an alarm joins a session whose window starts after the alarm's own pre-roll, because it read its clock before the session's opener did |
| `AlarmClipWindows.OneUnexpiredSession` | internal/server/alarm_clip_runtime.go:1055-1103 | in every run, in whatever order alarms commit, two recording sessions of a source never both have a hard deadline later than the latest clock reading of an alarm |
| `AlarmClipWindows.UnexpiredStep` | internal/server/alarm_clip_runtime.go:1070-1103 | that property is kept by every step, with no hypothesis on clock readings |
| `AlarmClipWindows.OpeningStep` | internal/server/alarm_clip_runtime.go:1078-1100 | every session was opened by one step, and its start is that alarm's clock reading |
| `AlarmClipWindows.IntervalInsideIff` | internal/server/alarm_clip_runtime.go:1055-1122 | in every run an alarm's interval lies inside its session if and only if its clock reading is not older than that of the alarm that opened the session; its upper end always does |
| `AlarmClipWindows.ClockOrderCovers` | internal/server/alarm_clip_runtime.go:1055-1122 | when alarms commit in the order of their readings every alarm's interval lies inside its session |
| `AlarmClipWindows.LoadOf` | internal/server/alarm_clip_runtime.go:1276-1284 | a working finalizer holds the row it loaded in its last load step, unchanged since |
| `AlarmClipWindows.WindowCoversIff` | internal/server/alarm_clip_runtime.go:1276-1337 | in every run that leaves the finalizer at work, its window is at most max + pre + settle long and reaches the end every attached alarm asks for if and only if no alarm that joined between its load and its mark asked for an end beyond the loaded one plus the settle time |
| `AlarmClipWindows.AlarmedStaysRelated` | internal/server/alarm_clip_runtime.go:1124-1148 | in every run each event of every alarm that committed stays related to the session the alarm joined |
| `AlarmClipWindows.AlarmedIsListed` | internal/server/alarm_clip_runtime.go:1301-1314 | so the finalizer of that session lists it |
| `AlarmClipWindows.AlarmedGetsClip` | internal/server/alarm_clip_runtime.go:1124-1382 | and an event that names that session once it is finished shows exactly its clip, unless the last event update failed and its error was discarded; an event that names another session is attached to that one too |
| `AlarmClipRuntime.FinalizedIsARun` | internal/server/alarm_clip_runtime.go:1267-1394 | one finalize call with successful writes is a run of the protocol; it has exactly the effect of its single-function form on the tables and touches no history of alarms |
| `AlarmClipRuntime.Runtime.FindActive` | internal/server/alarm_clip_runtime.go:1247-1265 | returns a recording session of the source with the latest start, and None only if there is none |
| `AlarmClipRuntime.Runtime.Start` | internal/server/alarm_clip_runtime.go:1027-1152 | its effect on the three tables is exactly one start-or-extend transaction on the active session or a new one, after which every event of the alarm is related to that session and its row reset; a source that is not ready changes nothing |
| `AlarmClipRuntime.Runtime.Schedule` | internal/server/alarm_clip_runtime.go:1154-1184 | arms the source's timer at ExpectedEnd + settle with the next sequence number |
| `AlarmClipRuntime.Runtime.Trigger` | internal/server/alarm_clip_runtime.go:427-435 | an alarm handled in full is one start-or-extend transaction followed by arming the source's timer for the end of the session joined; a source that is not ready changes nothing |
| `AlarmClipRuntime.Runtime.CloseActive` | internal/server/alarm_clip_runtime.go:1425-1439 | closing a source deletes its timer and finalizes its active recording session, if there is one |
| `AlarmClipRuntime.Runtime.Cancel` | internal/server/alarm_clip_runtime.go:1186-1201 | deletes the timer and its sequence number |
| `AlarmClipRuntime.Runtime.Finalize` | internal/server/alarm_clip_runtime.go:1267-1394 | turns the tables into the finalized tables, the session's row ending as its outcome says (closed with exactly the copied path and files, closed_empty or failed without), and cancels the timer of the session's source |
| `AlarmClipRuntime.Runtime.HandleDeadline` | internal/server/alarm_clip_runtime.go:1220-1245 | a callback with a stale number changes nothing; the current one clears the timer and finalizes the active recording session |
| `AlarmClipRuntime.CallbackIsCurrentIff` | internal/server/alarm_clip_runtime.go:1154-1240 | a callback is taken for the current one exactly when as many armings precede the present as preceded its own since the last deletion; without a deletion, exactly when the timer was not armed again |
| `AlarmClipRuntime.RestartedNumberExample` | internal/server/alarm_clip_runtime.go:1154-1201 | after a deletion numbers restart, so the first timer's callback passes for the second one's |
| `AlarmClipRuntime.Runtime.Recover` | internal/server/alarm_clip_runtime.go:1489-1548 | every unfinished session is kept as it was, finalized with its events delivered, or left closing when its finalize is aborted before it collects; finished ones are untouched, and the armed timers are exactly the predicted ones, each set to the end of the last kept row of its source |
| `AlarmClipRuntime.Runtime.RecoverRow` | internal/server/alarm_clip_runtime.go:1508-1546 | one row is kept and its timer armed for its expected end plus settle, or finalized and its source's timer cancelled, by the five conditions in their order |
| `AlarmClipRuntime.RecoveryLeavesOneSession` | internal/server/alarm_clip_runtime.go:1489-1548 | with finalizes succeeding no session is left closing and each source has at most one recording session: its first recording row, the one with the largest expected end |
| `AlarmClipRuntime.KeptTimerIff` | internal/server/alarm_clip_runtime.go:1299-1299 | a kept session still has its timer after recovery if and only if no later row belongs to its source |
| `AlarmClipRuntime.LostTimerExample` | internal/server/alarm_clip_runtime.go:1299-1299 | a run of the protocol with a crash, after which recovery keeps the new session and leaves it without a timer |
| `AlarmClipDeadlines.ServedIff` | internal/server/alarm_clip_runtime.go:1070-1245 | in every run of alarms, deadlines and closings, the next deadline of its source ends a recording session if and only if no alarm opened another session of the source while it was recording, unless one joined it since, and the timer was not used up in vain; its timer is then set to its end |
| `AlarmClipDeadlines.OutrunStays` | internal/server/alarm_clip_runtime.go:1070-1245 | a session outrun in that way is ended by no timer: in every continuation it stays recording exactly as it is until an alarm joins it or its source is closed while it is the active one |
| `AlarmClipDeadlines.JoinsIff` | internal/server/alarm_clip_runtime.go:1070-1107 | an alarm joins an existing session exactly when it is the active one and the alarm's clock reading is before its hard deadline |
| `AlarmClipDeadlines.OrderAfterAlarm` | internal/server/alarm_clip_runtime.go:1070-1122 | after every alarm the session it joined has the latest start of the recording sessions of its source, which all start at different times, and it is the only one not outrun |
| `AlarmClipDeadlines.CurrentIsActive` | internal/server/alarm_clip_runtime.go:1247-1265 | the query for the active session can only return the session not outrun |
| `AlarmClipDeadlines.RaiseKeeps` | internal/server/alarm_clip_runtime.go:427-435 | an alarm leaves the source's timer set to the end of the session not outrun |
| `AlarmClipDeadlines.EndKeeps` | internal/server/alarm_clip_runtime.go:1220-1245 | a deadline or a closing keeps every timer with the session not outrun of its source |
| `AlarmClipDeadlines.OrphanExample` | internal/server/alarm_clip_runtime.go:1075-1245 | a run in which an alarm between the hard deadline and the timer opens a second session and leaves the first one recording without a timer |
| `AlarmClipTimers.TimerIff` | internal/server/alarm_clip_runtime.go:1154-1299 | with commit, schedule, firing, check, query, lock, mark and cancel as separate interleaved steps, in every run: a recording session not outrun is the active one, and when its alarms are scheduled and nobody is about to end it, it has its timer if and only if since the last scheduling no finalizer cancelled the timer and no attempt that left none came to nothing |
| `AlarmClipTimers.LostByCancelIff` | internal/server/alarm_clip_runtime.go:1186-1299 | the only step by which an active session loses its timer with none to come and nobody about to end it is a finalizer's cancel by source, and that finalizer works on another session |
| `AlarmClipTimers.StepKeeps` | internal/server/alarm_clip_runtime.go:1027-1394 | the invariant behind both is kept by every step |
| `AlarmClipTimers.AliveStep` | internal/server/alarm_clip_runtime.go:1154-1240 | every entry in the timer table stays a running timer or one whose callback is under way with the current number |
| `AlarmClipTimers.TakenTimerExample` | internal/server/alarm_clip_runtime.go:1285-1299 | a run outside recovery in which the next session is opened and scheduled between a finalizer's mark and its cancel, and loses its timer |
| `SipMessage.CollectHeaders` | internal/gb28181/service.go:1000-1021 | the header loop collects exactly the names the lines give, and under each all its values in order, joined by commas, without the empty ones in front |
| `SipMessage.ParseRequest` | internal/gb28181/service.go:987-1038 | the parser returns exactly the specified result, error cases included |
| `SipMessage.ParseResponse` | internal/gb28181/service.go:1040-1098 | the same for responses |
| `SipMessage.SplitPrinted` | internal/gb28181/service.go:1100-1111 | the first blank line of a printed message ends its header whatever the body holds |
| `SipMessage.FieldLinesParse` | internal/gb28181/service.go:1000-1021 | parsing printed header lines gives the map of their fields |
| `SipMessage.RequestRoundTrip` | internal/gb28181/service.go:987-1038 | parsing a printed request gives back method, URI, version, every header under its lower-cased name and the body up to the declared length |
| `SipMessage.ResponseRoundTrip` | internal/gb28181/service.go:1040-1098 | the same for a printed response with its code and reason |
| `SipMessage.FieldMapHolds` | internal/gb28181/service.go:1016-1020 | without repeated names the map holds exactly the printed values and no other key |
| `SipMessage.HeadersHold` | internal/gb28181/service.go:1000-1021 | whatever the lines, the map holds exactly the named headers, each with the comma-join of all its values in order |
| `SipMessage.PrintedHeadersHold` | internal/gb28181/service.go:1000-1021 | the same for printed fields, repeated names included |
| `SipMessage.TwoViasExample` | internal/gb28181/service.go:1016-1020 | a message with two Via lines keeps both |
| `SipParsing.SplitIff` | internal/gb28181/service.go:1100-1111 | any packet falls into these two parts exactly when its header ends there, at the first blank line or, without one, at the first empty bare line; it is refused exactly when it is empty or has neither |
| `SipParsing.LinesIff` | internal/gb28181/service.go:1125-1131 | a header falls into these lines exactly when they make it up with the line break between them and none holds the break, which is CRLF as soon as there is one |
| `SipParsing.RequestParsed` | internal/gb28181/service.go:987-1038 | any packet whose first line holds two words and a rest is the request with that method in capitals, the other parts trimmed, the header lines' map and the body up to the declared length |
| `SipParsing.RequestRefused` | internal/gb28181/service.go:996-999 | with fewer words it is refused |
| `SipParsing.ResponseParsed` | internal/gb28181/service.go:1040-1098 | a status line needs a number as its second word; the reason may be missing |
| `SipParsing.ResponseRefused` | internal/gb28181/service.go:1049-1052 | without a second word it is refused |
| `SipParsing.DeclaredBodyIff` | internal/gb28181/service.go:1023-1029 | a declared length that is there cuts the body; one that is missing, unreadable, negative or too long does not |
| `SipParsing.BareFeedsIff` | internal/gb28181/service.go:1100-1131 | lines ended by bare line feeds are read like those of a printed message if and only if no blank line with carriage returns lies in the body |
| `SipParsing.BareFeedsParse` | internal/gb28181/service.go:987-1131 | then the packet parses like the one with CRLF, as a request and as a response |
| `SipRequests.CatalogRoundTrip` | internal/gb28181/service.go:1300-1328 | parsing a printed catalog query gives back method, URI, version, exactly its headers and its exact body |
| `SipRequests.InviteRoundTrip` | internal/gb28181/service.go:1353-1385 | the same for an INVITE, with Contact and Subject |
| `SipRequests.AckRoundTrip` | internal/gb28181/service.go:1387-1415 | the same for an ACK |
| `SipRequests.ByeRoundTrip` | internal/gb28181/service.go:1417-1451 | the same for a BYE, with a blank tag and a missing CSeq replaced |
| `SipRequests.NamesSent` | internal/gb28181/service.go:1300-1328 | the transport is sent in capitals, UDP when none is given, and the local host in place of a listening address that stands for all |
| `SipRequests.CatalogRead` | internal/gb28181/service.go:1300-1328 | the receiver of a catalog query reads method, target, exact body, Via, From, To, Call-ID, CSeq, Max-Forwards, content type, agent and length as they were meant |
| `SipRequests.InviteRead` | internal/gb28181/service.go:1353-1385 | the receiver of an INVITE reads also Contact and the Subject with the stream, the given one or the channel's id |
| `SipRequests.AckRead` | internal/gb28181/service.go:1387-1415 | the receiver of an ACK reads the dialog's headers, with the given To or one made of channel and domain |
| `SipRequests.ByeRead` | internal/gb28181/service.go:1417-1451 | the receiver of a BYE reads the same, with a fresh tag when none is known and a fresh number when it is not positive |
| `SipRequests.DeclaredBodyExact` | internal/gb28181/service.go:1023-1029 | a Content-Length equal to the body's length cuts nothing off |
| `SipRequests.ClassifierExact` | internal/gb28181/service.go:1113-1123 | a printed message is classified as a response if and only if its start line begins with the version word in any case, so printed requests and responses are never confused |
| `SipResponses.ParsedValuesTrimmed` | internal/gb28181/service.go:1014-1020 | every value a parsed header map holds is trimmed |
| `SipResponses.BuiltResponseParses` | internal/gb28181/service.go:1201-1229 | parsing the built response gives back code, reason and exactly the echoed and own fields |
| `SipResponses.ResponseEcho` | internal/gb28181/service.go:1201-1237 | for any parsed request with clean values the parsed response has identical Via, From, Call-ID and CSeq, and To unchanged or with one tag added |
| `SipResponses.EnsureTagIdempotent` | internal/gb28181/service.go:1231-1237 | a tagged value is recognised as tagged, so tagging twice changes nothing |
| `SipResponses.EnsureTagMeans` | internal/gb28181/service.go:1231-1237 | a tag is added exactly when the value holds none, in any case |
| `SipResponses.OwnRead` | internal/gb28181/service.go:1201-1229 | the receiver reads the reason, Unknown for none, the agent, an empty body, and the challenge and date exactly when given |
| `SipFraming.Reader.ReadHeaders` | internal/gb28181/service.go:1461-1476 | the header loop consumes lines up to the blank one and finds the specified length |
| `SipFraming.Reader.ReadPacket` | internal/gb28181/service.go:1453-1488 | one call returns exactly the specified packet and leaves the bytes behind it |
| `SipFraming.Reader.ReadAll` | internal/gb28181/service.go:1453-1488 | repeated calls return exactly the specified packets until the first read error |
| `SipFraming.LineTaken` | internal/gb28181/service.go:1453-1476 | a line ends with the first line feed, and without one there is none to take |
| `SipFraming.FramingExact` | internal/gb28181/service.go:1453-1488 | a packet is read back exactly, whatever follows, if and only if the length its headers declare is the body's |
| `SipFraming.SpellingsIff` | internal/gb28181/service.go:1468-1473 | of all the names the parser takes for the length header, white space around them and any mix of cases included, the reader honours exactly Content-Length and content-length directly followed by the colon |
| `SipFraming.PrintedIsFramed` | internal/gb28181/service.go:1453-1488 | a printed message ending in its true length is framed exactly, for any body bytes, blank lines included |
| `SipFraming.StreamOfPackets` | internal/gb28181/service.go:1453-1488 | reading a concatenation of framed packets returns exactly those packets in order and goes on with the bytes behind them |
| `SipFraming.CatalogIsFramed` | internal/gb28181/service.go:1300-1328 | a printed catalog query is framed |
| `SipFraming.InviteIsFramed` | internal/gb28181/service.go:1353-1385 | a printed INVITE is framed |
| `SipFraming.DialogIsFramed` | internal/gb28181/service.go:1387-1451 | a printed ACK or BYE is framed |
| `SipFraming.ResponseIsFramed` | internal/gb28181/service.go:1201-1229 | a built response is framed |
| `Coalescer.OneBodyPerKey` | internal/server/pull_self_heal.go:15-68 | in every run at most one worker serves a key, a key is marked running exactly while it has one, and pending keys are running |
| `Coalescer.StepKeepsInv` | internal/server/pull_self_heal.go:15-68 | the invariant behind it is kept by every call, start, finish and check |
| `Coalescer.StartsNeverExceedCalls` | internal/server/pull_self_heal.go:33-68 | bodies started plus bodies owed never exceed the calls made |
| `Coalescer.StartedOrOwed` | internal/server/pull_self_heal.go:33-68 | after a call a body has started or is owed, at every later moment |
| `Coalescer.NoLostCall` | internal/server/pull_self_heal.go:33-68 | once the key is idle a body has started after each call |
| `Coalescer.QuietSegment` | internal/server/pull_self_heal.go:51-67 | without new calls each step of the key's worker brings it one step closer to its end, and exactly the owed bodies start: at most one besides the current one |
| `Coalescer.RunningProgresses` | internal/server/pull_self_heal.go:51-67 | a running key always has a step of its own left |
| `Coalescer.IdleLeavesNothing` | internal/server/pull_self_heal.go:63-65 | a key with no step left is in neither map |
| `Coalescer.Scheduler.Schedule` | internal/server/gb28181_runtime.go:233-262 | the flag tables change as specified, and a worker is spawned exactly for an idle non-blank key |
| `Coalescer.Scheduler.Check` | internal/server/gb28181_runtime.go:273-283 | pending is cleared for another body, or both entries are deleted |
| `Coalescer.Scheduler.Work` | internal/server/gb28181_runtime.go:339-365 | with calls landing during its bodies the worker loop runs exactly the predicted number of bodies and leaves only its own key's entries deleted |
| `Coalescer.ArrivalsAnswered` | internal/server/pull_self_heal.go:47-68 | each body during which calls land is followed by another, and nothing else makes the worker run again |
| `Coalescer.RunWithRetry` | internal/server/pull_self_heal.go:70-83 | one to three attempts, stopping at the first success, after waits of 0, 1200 and 3000 ms |
| `Coalescer.KeysClashIff` | internal/server/pull_self_heal.go:204-211 | two different devices have a channel key in common if and only if one id is the other followed by a slash and a rest that does not start with white space |
| `Coalescer.KeysTrimmed` | internal/server/pull_self_heal.go:204-211 | white space around the ids does not matter, and a blank channel is the device's own |
| `Coalescer.UnextendedKeys` | internal/server/pull_self_heal.go:204-211 | between devices neither of which extends the other in that way a channel key stands for one device and channel only |
| `Coalescer.KeysAreDistinct` | internal/server/pull_self_heal.go:204-211 | in particular between ids without a slash |
| `Coalescer.RegisteredKeysAreDistinct` | internal/gb28181/service.go:24-24 | and between ids of 20 digits, the only ones registration accepts |
| `Coalescer.SlashCollides` | internal/server/pull_self_heal.go:204-211 | the pairs of channels that clash: what follows the slash moves from the device to the channel |
| `Coalescer.ClashExample` | internal/server/pull_self_heal.go:204-211 | channel 1/2 of cam and channel 2 of cam/1 share a key, while a/b and c/d never do |
| `TestJobRows.Store.Refresh` | internal/server/algorithm_test_jobs.go:670-720 | the counting loop writes exactly the row the items determine |
| `TestJobRows.Store.Fail` | internal/server/algorithm_test_jobs.go:629-668 | one UPDATE with a WHERE clause fails exactly the rows it matches |
| `TestJobRows.Store.Prepare` | internal/server/algorithm_test_jobs.go:170-231 | unsupported media, a broken configuration and a missing video prompt are written off in this order, and the executor goes on exactly if pending items remain |
| `TestJobRows.TerminalSum` | internal/server/algorithm_test_jobs.go:692-701 | success and failed counts add up to the total exactly when every item is terminal |
| `TestJobRows.StatusMeans` | internal/server/algorithm_test_jobs.go:690-702 | what each refreshed status says about the items, as equivalences |
| `TestJobRows.RowShowsCounts` | internal/server/algorithm_test_jobs.go:690-720 | the refreshed row shows how many items succeeded and how many failed |
| `TestJobRows.PreparedMeans` | internal/server/algorithm_test_jobs.go:170-231 | exactly the waiting items of unsupported media, without a configuration all unfinished ones, and without a prompt the unfinished videos are failed before the workers start; the others stay as they are |
| `TestJobProtocol.PreparedStarts` | internal/server/algorithm_test_jobs.go:170-231 | preparing leaves a startable job or only terminal items, and never touches a terminal one |
| `TestJobProtocol.InFlight` | internal/server/algorithm_test_jobs.go:51-75 | at every step at most five analyses and at most one video are in flight, and the run counts are bounded |
| `TestJobProtocol.SlotsStep` | internal/server/algorithm_test_jobs.go:58-75 | the two semaphores always hold exactly the slots their holders took |
| `TestJobProtocol.CellsStep` | internal/server/algorithm_test_jobs.go:254-413 | the per-item invariant (place, status, number of runs, retry list) is kept by every step |
| `TestJobProtocol.RefreshNeverOverstates` | internal/server/algorithm_test_jobs.go:333-338 | however stale, no refresh shows success or failed counts above the true ones or a terminal status before all items are terminal |
| `TestJobProtocol.StaleRefreshExample` | internal/server/algorithm_test_jobs.go:670-720 | a run in which the job row reads completed and afterwards running again |
| `TestJobProtocol.EndedStaysIff` | internal/server/algorithm_test_jobs.go:670-720 | after any run with an ended job row, the row stays ended in every continuation if and only if no worker still holds counts read before the last item ended |
| `TestJobProtocol.EndedStep` | internal/server/algorithm_test_jobs.go:670-720 | with no such counts held, an ended row and their absence are kept by every step |
| `TestJobProtocol.FinishedIsComplete` | internal/server/algorithm_test_jobs.go:400-416 | a finished executor leaves all items terminal, all slots free and the row exactly determined by the items |
| `TestJobProtocol.StoreSaves` | internal/server/algorithm_test_jobs.go:580-614 | storing an item writes success exactly when its analysis succeeded and failed exactly when it did not |
| `TestJobProtocol.FinishedShowsVerdicts` | internal/server/algorithm_test_jobs.go:400-416 | in every finished run exactly the queued items have a verdict, each shows the last one of its own, the others are untouched, and the job row holds exactly the counts and the status of these |
| `TestJobProtocol.EveryRetryTakesPlace` | internal/server/algorithm_test_jobs.go:333-413 | in every finished run a queued item was analysed once, and once more for each verdict that asked for it |
| `TestJobProtocol.NeverStuck` | internal/server/algorithm_test_jobs.go:58-75 | until the executor has finished some step is enabled; the dispatcher holding a total slot and waiting for the video slot cannot deadlock |
| `TestJobProtocol.EveryRunEnds` | internal/server/algorithm_test_jobs.go:151-424 | every run is at most as long as the initial rank: all interleavings terminate |
| `TestJobProtocol.StuckMeansFinished` | internal/server/algorithm_test_jobs.go:151-424 | a run that cannot be continued has finished with everything terminal and the run bounds kept |
| `TestJobProtocol.AnalysesBounded` | internal/server/algorithm_test_jobs.go:297-299 | over a whole run an image is analysed at most 1 + retryLimit times and a video at most once |
| `TestJobProtocol.DispatchedInOrder` | internal/server/algorithm_test_jobs.go:235-252 | within a round the items are dispatched in their order |
| `TestJobProtocol.RowStep` | internal/server/algorithm_test_jobs.go:333-338 | a row write shows counts read at some earlier moment, never above the present ones |
| `AnalysisConfig.NormalizeLabels` | ai-analysis/main.py:445-459 | the loop with its seen set keeps exactly the first label of each spelling |
| `AnalysisConfig.LabelsAreClean` | ai-analysis/main.py:445-459 | the kept labels are stripped, non-blank, distinct up to case, and cover exactly the given spellings |
| `AnalysisConfig.NormalizeConfigs` | ai-analysis/main.py:381-412 | the result is exactly the named configurations, in order, each with stripped id, clean labels and thresholds in range |
| `AnalysisConfig.SettingsMean` | ai-analysis/main.py:431-494 | a threshold in its range is kept, a positive one outside drawn to the nearer end, any other replaced by the default; exactly modes 1 and 2 are not hybrid |
| `AnalysisConfig.ConfigMeans` | ai-analysis/main.py:381-412 | a configuration keeps its texts trimmed and asks for all labels exactly when its trigger says all, in any case |
| `AnalysisConfig.LabelKept` | ai-analysis/main.py:445-459 | a label is kept exactly when it is not blank and none before it is spelled like it, in any case |
| `AnalysisConfig.ConfigKept` | ai-analysis/main.py:381-412 | a configuration is kept exactly when it names an algorithm |
| `AnalysisConfig.OverlapMeans` | ai-analysis/main.py:1131-1142 | the overlap is the area of the box of the common points, and 0 when there is none |
| `AnalysisConfig.IouMeans` | ai-analysis/main.py:1131-1142 | the IoU is the share of the overlap in what the boxes cover together, with the code's epsilon |
| `AnalysisConfig.IouBounds` | ai-analysis/main.py:1131-1142 | for boxes of positive area the IoU is symmetric, non-negative and below one |
| `AnalysisConfig.SelfIouIff` | ai-analysis/main.py:1131-1142 | a box passes as its own repetition exactly when area * (1 - threshold) >= threshold * 1e-6 |
| `AnalysisConfig.SelfIouPasses` | ai-analysis/main.py:483-494 | every normalised threshold accepts a positive-area integer box as its own repetition |
| `FrameAnalysis.AlarmHasMatches` | ai-analysis/main.py:545-577 | a triggering algorithm always has a matching detection |
| `FrameAnalysis.StreamAgreesWithImage` | ai-analysis/main.py:835-969 | a first frame and the same picture analysed as an image give the same results in the same order, for all configurations, duplicate ids and mixed modes included |
| `FrameLaws.HitMeans` | ai-analysis/main.py:545-577 | an algorithm triggers exactly when some detection counts for it or, in the all mode, when each of its labels is seen; it shows exactly the detections that count |
| `FrameLaws.AskedWith` | ai-analysis/main.py:507-529 | the detector's threshold is the smallest one and its names are exactly those of any target |
| `FrameLaws.HitOfLast` | ai-analysis/main.py:851-857 | an algorithm is judged by its last configuration among those looked at |
| `FrameLaws.IsAlarmMeans` | ai-analysis/main.py:497-505 | a verdict is an alarm exactly for a true flag, a number of integer part other than 0, or one of the four words |
| `FrameLaws.VerdictExamples` | ai-analysis/main.py:497-505 | the word 1 is an alarm and the word 0 is none |
| `FrameLaws.LargeAlarmsIff` | ai-analysis/main.py:701-811 | a large-model alarm is in the results exactly when some verdict raises it: its task code names a configuration that was asked about, and it says yes |
| `FrameLaws.LargeAlarmsInOrder` | ai-analysis/main.py:701-811 | one alarm for each verdict that raises any, in their order |
| `FrameLaws.BoxesIff` | ai-analysis/main.py:775-791 | an alarm shows exactly the readable boxes of the objects of its task, those its verdict names or all when it names none |
| `FrameLaws.PendingIff` | ai-analysis/main.py:883-938 | with an algorithm that always asks, all but the small-model ones are asked about; else the hybrid ones that trigger and are new |
| `FrameLaws.ImagePendingIff` | ai-analysis/main.py:1501-1518 | the same for an image, without memory |
| `FrameLaws.SmallConfigsIff` | ai-analysis/main.py:836-845 | the small model looks at its own algorithms, and at the hybrid ones unless one always asks |
| `FrameLaws.ResultsIff` | ai-analysis/main.py:835-969 | the results are exactly the alarms of triggered small-model algorithms and those the verdicts raise |
| `FrameTasks.SplitModes` | ai-analysis/main.py:836-845 | the three mode lists keep the configurations in order |
| `FrameTasks.Detect` | ai-analysis/main.py:507-529 | the detector is asked with the smallest threshold and all labels of the targets |
| `FrameTasks.CameraTask.EvaluateHits` | ai-analysis/main.py:531-602 | the nested loops compute for every target the matching detections and the any/all decision |
| `FrameTasks.CameraTask.IndexHits` | ai-analysis/main.py:851-857 | the index holds one hit per id, the last configuration's |
| `FrameTasks.CameraTask.ShouldCallFor` | ai-analysis/main.py:1144-1217 | a call is wanted if and only if nothing is remembered, the count changed or some detection overlaps no remembered one of the same name by the threshold |
| `FrameTasks.CameraTask.BuildLlmResults` | ai-analysis/main.py:701-811 | reading the answer (configuration, gate, verdict) yields exactly the specified alarms with their boxes |
| `FrameTasks.CameraTask.Gate` | ai-analysis/main.py:901-938 | the asked-about set and the entries to remember are the specified ones |
| `FrameTasks.CameraTask.ProcessFrame` | ai-analysis/main.py:835-969 | results and new memory are exactly the specified outcome of a frame; an alarm is in the results exactly when a small-model algorithm triggers it or a verdict of an algorithm asked about says yes |
| `FrameTasks.EvaluateImage` | ai-analysis/main.py:1457-1484 | the image copy of the evaluation builds the same index |
| `FrameTasks.ReadAnswer` | ai-analysis/main.py:1535-1602 | the image copy (verdict, configuration, gate) yields the same alarms although it checks in another order |
| `FrameTasks.AnalyzeImage` | ai-analysis/main.py:1407-1603 | an empty configuration list is refused; otherwise the results are the specified ones, exactly the small-model triggers and the alarms the verdicts raise |
| `GateMemory.MemoryIsLastAsked` | ai-analysis/main.py:963-968 | in every run of frames an algorithm's memory is exactly its detections in the last frame it was asked about |
| `GateMemory.SkippedIsCovered` | ai-analysis/main.py:1144-1217 | no drift: a skipped triggered algorithm has as many detections as in that frame, each overlapping one of the same name by the threshold |
| `GateMemory.RepeatIsSkipped` | ai-analysis/main.py:1144-1217 | a repetition of the detections last asked about is always skipped under normalised thresholds |
| `GateMemory.AskedIff` | ai-analysis/main.py:901-968 | in every run of frames an algorithm is asked about if and only if one of its hybrid configurations triggers, and it was never asked about before or the frame differs from the one it was last asked about, in the number of its detections or by one that overlaps none of the same name by the threshold |
| `GateMemory.FailedCallSilences` | ai-analysis/main.py:939-968 | a frame whose large-model call failed raises no large-model alarm, and from then on the algorithm is asked about again exactly in the first frame that triggers it and differs from that one |
| `GateMemory.RepeatsStaySilent` | ai-analysis/main.py:939-968 | so it stays silent for as long as the same detections repeat |
| `GateMemory.SilencedExample` | ai-analysis/main.py:939-968 | two frames with the same person: the call for the first fails and none is made for the second |
| `GateMemory.NeverFiltersBesideLlmOnly` | ai-analysis/main.py:891-900 | beside an algorithm that always asks nothing is remembered and every hybrid one is asked about |
| `UsageLedger.Tables.RecordUsage` | internal/server/llm_usage.go:107-163 | log and both tables change exactly as specified for every pattern of failing writes |
| `UsageLedger.CallKeeps` | internal/server/llm_usage.go:107-143 | a logged call keeps its texts trimmed, the reported model before the requested one, its own time before the clock's and its tokens; unknown sources and states become direct and error |
| `UsageLedger.RecordSays` | internal/server/llm_usage.go:107-163 | a request reports recorded exactly when its call is new and every write succeeds, nothing to do exactly when it has no id or is logged already; the log grows by exactly its call, and each table changes only by its own write |
| `UsageLedger.FoldMeans` | internal/server/llm_usage.go:165-227 | a fold counts the calls of its bucket and key and sums their prompt, completion and total tokens separately |
| `UsageLedger.RowsShowSums` | internal/server/llm_usage.go:107-227 | after any requests every row shows how many calls were logged in its hour or day under its key and the three token sums |
| `UsageLedger.UpsertAgrees` | internal/server/llm_usage.go:165-227 | an upsert for a newly logged call keeps every row the fold of its calls |
| `UsageLedger.RecordConsistentIff` | internal/server/llm_usage.go:145-163 | a request keeps log and tables consistent if and only if it logs nothing new or all its writes succeed: they are not one transaction |
| `UsageLedger.ReplayChangesNothing` | internal/server/llm_usage.go:145-154 | replaying a logged call changes nothing, so it cannot repair a table |
| `UsageLedger.LedgerConsistent` | internal/server/llm_usage.go:107-227 | after any successful requests, each with its own clock reading and duplicates included, each hourly and daily row is the fold of the distinct logged calls of its bucket and key, and the used tokens are the sum over the daily, and over the hourly, rows |
| `UsageLedger.FirstRequestWins` | internal/server/llm_usage.go:145-154 | the log holds one call per non-blank id, that of the first request |
| `UsageLedger.LoggedIffRequested` | internal/server/llm_usage.go:111-154 | an id is logged exactly if it is non-blank and was requested |
| `UsageLedger.DriftStays` | internal/server/llm_usage.go:165-227 | a gap between log and tables left by a failed write is never closed by later requests |
| `UsageLedger.DayOfHour` | internal/server/llm_usage.go:79-85 | the day of an hour bucket is the day of the moment itself |
| `UsageLedger.BucketsHold` | internal/server/llm_usage.go:79-85 | a bucket starts on the hour or at midnight of the zone, and the moment lies in it |
| `UsageLedger.DayIsItsHours` | internal/server/llm_usage.go:79-85 | the fold of a day is the sum of the folds of its 24 hours |
| `UsageLedger.DailyIsHourlySum` | internal/server/llm_usage.go:165-227 | each daily row is the sum of the hourly rows of its day |
| `UsageLedger.DailyTableIsHourlySum` | internal/server/llm_usage.go:107-227 | after any requests, for the day of every moment and every key, with or without a row, the daily entry is the sum of the 24 hourly ones, and so is every daily row |
| `UsageLedger.DailyBucketsAreDays` | internal/server/llm_usage.go:83-85 | rows are only made for the start of a day |
| `UsageLedger.UpsertTokens` | internal/server/llm_quota.go:61-73 | an upsert adds exactly the call's tokens to the sum the quota can be compared with |
| `SequentialJobs.PatrolOutcomeSound` | internal/server/dashboard_camera2_patrol.go:382-486 | a patrol run that stored an event has succeeded and is not retried |
| `SequentialJobs.PatrolEnds` | internal/server/dashboard_camera2_patrol.go:382-486 | a run succeeds exactly when the picture was taken, analysed, answered and, for an alarm, its event stored; it shows that event, and only a run that reached the request may be retried |
| `SequentialJobs.RetryIff` | internal/server/algorithms.go:1616-1654 | an image is analysed again exactly after a failure that may pass |
| `SequentialJobs.JobStatusMeans` | internal/server/dashboard_camera2_patrol.go:606-646 | what the recomputed status says about the items, as equivalences |
| `SequentialJobs.DraftOutcomeSound` | internal/server/algorithm_draft_job.go:394-414 | a draft run ends in a terminal status and stores no event |
| `SequentialJobs.DraftEnds` | internal/server/algorithm_draft_job.go:394-414 | a draft run ends as its error message says and is retried like any image |
| `SequentialJobs.DraftTestsMean` | internal/server/algorithm_draft_job.go:394-414 | an image test succeeds exactly with an accepted answer, a video test with a positive one |
| `SequentialJobs.DraftImageIff` | internal/server/algorithm_draft_job.go:404-410 | a draft image is recorded contrary to its test's outcome exactly when the image could not be read |
| `SequentialJobs.DraftVideoIff` | internal/server/algorithm_draft_job.go:404-410 | a draft video is recorded as failed only when the quota is used up; any other failed video is recorded as a success |
| `SequentialJobs.UniqueStrings` | internal/server/tasks.go:2283-2298 | trimmed, non-blank, distinct ids, exactly those given, each at its first place |
| `SequentialJobs.Job.Recompute` | internal/server/dashboard_camera2_patrol.go:606-646 | the counters and the status are exactly those of the items |
| `SequentialJobs.Job.MarkRunning` | internal/server/dashboard_camera2_patrol.go:309-317 | the section before a run keeps the tallies although it does not recompute them |
| `SequentialJobs.Job.Conclude` | internal/server/dashboard_camera2_patrol.go:321-330 | the section after a run keeps the item for another round or stores its end, and keeps tallies, event counts and places |
| `SequentialJobs.Job.Execute` | internal/server/dashboard_camera2_patrol.go:297-348 | at the end every item is terminal after at most 1 + retryLimit runs, success and failed counts make up the total and fix the job status, AlarmCount equals the events created, no item has two, and each item shows the outcome of its last run, having run once in every round up to it |
| `SequentialJobs.Job.RetryRound` | internal/server/algorithm_draft_job.go:325-339 | one retry round runs each waiting item once and returns exactly the ids whose run asks for another round that is still allowed, in order |
| `SequentialJobs.RetriedIff` | internal/server/algorithm_draft_job.go:325-339 | an id is left for the next round exactly when its run asks for one and a round is still allowed |
| `SequentialJobs.LastRoundIff` | internal/server/algorithm_draft_job.go:325-339 | an item's last run is the first that asks for no other, or the one of the last round |
| `SequentialJobs.RunPatrolJob` | internal/server/dashboard_camera2_patrol.go:297-348 | for all run conditions no device ever gets a second alarm event |
| `AreaTree.FillChildren` | internal/server/areas.go:42-45 | the children map lists for every parent its areas in order |
| `AreaTree.BuildNodes` | internal/server/areas.go:46-61 | the recursive closure terminates and returns the specified forest |
| `AreaTree.ListAreas` | internal/server/areas.go:35-63 | the listing is the forest built from the empty parent, every area above exactly its children in their order |
| `AreaTree.PathBound` | internal/server/areas.go:46-61 | along any recursion path ids are distinct, so its depth is bounded by the number of areas |
| `AreaTree.EachReachedOnce` | internal/server/areas.go:35-63 | an area occurs exactly once if its parent chain reaches the empty parent and never otherwise |
| `AreaTree.ListingMirrors` | internal/server/areas.go:46-61 | the listing shows below every area exactly its children, in their order, each with its own data |
| `AreaTree.ChildrenInOrder` | internal/server/areas.go:42-45 | the children of an area stand in the order of the areas |
| `AreaTree.CycleNeverReaches` | internal/server/areas.go:115-118 | an area on a cycle never reaches the empty parent |
| `AreaTree.MovedIsListedIff` | internal/server/areas.go:115-118 | a moved area is listed, and then once, if and only if the chain of its new parent reaches the empty parent without passing the area itself; a descendant, a missing parent and a cycle all fail |
| `AreaTree.MoveBelowItself` | internal/server/areas.go:115-118 | moving an area below its own descendant takes the descendant out of the listing with it |
| `Letterbox.FitsCanvas` | ai-analysis/detect.py:486-495 | the resized picture fits into the canvas with margins differing by at most one |
| `Letterbox.ResizeNotEmptyIff` | ai-analysis/detect.py:486-489 | the resize has something to produce exactly when neither side is longer than the canvas side times the other |
| `Letterbox.RoundTripBound` | ai-analysis/detect.py:543-559 | mapping a coordinate forward and back with the clip lands inside the picture, less than 1/scale from its start |
| `Letterbox.RoundTripExact` | ai-analysis/detect.py:543-559 | along the side that fills the canvas the way back is exact |
| `Letterbox.FillCanvas` | ai-analysis/detect.py:491-495 | the canvas holds the resized picture at its offsets and grey elsewhere |
| `Notification.BroadcastIff` | internal/server/events.go:1006-1042 | an alarm is notified if and only if the cycle is off, an id is blank, or no event of the key was notified less than the cycle before |
| `Notification.OneAlarm` | internal/server/events.go:480-523 | a stored alarm becomes one runtime event of its key, notified now exactly when the query fails, the cycle is off, an id is blank, or none was notified within the cycle |
| `Notification.NotificationsSpaced` | internal/server/events.go:480-523 | over every run whose queries succeed notified events are at least a cycle apart, and an event is suppressed exactly when a notified one lies less than a cycle before it |
| `Notification.SpacedIff` | internal/server/events.go:480-523 | over every run, failed queries included, the notified events of a key are spaced by its cycle if and only if no alarm of the key with a failed query was stored while the cycle of a notified event was still running |
| `Notification.SpacedStepIff` | internal/server/events.go:480-523 | one alarm keeps the spacing if and only if it is no such alarm |
| `Notification.WindowBound` | internal/server/events.go:1006-1042 | any window of length L holds at most floor(L/c) + 1 notifications |
| `Notification.FailedQueryExample` | internal/server/events.go:485-496 | a failed query falls back to notifying and breaks the spacing |
| `Notification.EventTable.HandleAlarm` | internal/server/events.go:480-523 | the event is always stored, and broadcast exactly if it carries a notification time |
| `Dashboard.Accumulate` | internal/server/dashboard_camera2.go:304-387 | the pass over the rows fills counters and maps with exactly the counts per key |
| `Dashboard.CountersMean` | internal/server/dashboard_camera2.go:304-387 | the counters count the rows by what their status says, in any case, and by severity: up to 1 high, 2 medium, the rest low |
| `Dashboard.KeysMean` | internal/server/dashboard_camera2.go:304-387 | the keys are the trimmed ids, missing areas and algorithms have keys of their own, and a bucket counts the rows of its hour or day |
| `Dashboard.ReadOut` | internal/server/dashboard_camera2.go:409-450 | reading a map out, in any order, lists each key once with its count |
| `Dashboard.Conservation` | internal/server/dashboard_camera2.go:304-387 | over distinct keys covering all rows the counts per key add up to the whole |
| `Dashboard.BuildStats` | internal/server/dashboard_camera2.go:283-454 | from the rows of the query to the figures: exact counters of what each status and severity says, handling, false-alarm and accuracy rates of exactly those counters, rates within [0, 100] and 0 without rows, area and type distributions that list each key once with its count in falling order and add up to the rows, per-algorithm accuracies whose weighted mean is the average accuracy, a top three that falls in count and that nobody left out exceeds, and a trend that adds up to the rows when the range holds them |
| `Dashboard.Distribution` | internal/server/dashboard_camera2.go:409-450 | reading a table out and sorting it lists each key once with its exact count, falling, adding up to the number of rows |
| `Dashboard.SortRanks` | internal/server/dashboard_camera2.go:420-450 | sorting ranks the items and neither loses nor adds any |
| `Dashboard.Reordered` | internal/server/dashboard_camera2.go:420-450 | a reordered distribution is one |
| `Dashboard.DistributionTotal` | internal/server/dashboard_camera2.go:409-450 | the counts of a distribution add up to the number of rows, whatever its order |
| `Dashboard.SeverityTotal` | internal/server/dashboard_camera2.go:314-322 | high, medium and low counts add up to the number of rows |
| `Dashboard.RatesInRange` | internal/server/dashboard_camera2.go:688-693 | handling rate, false-alarm rate, average accuracy and every algorithm's accuracy lie in [0, 100] |
| `Dashboard.AverageIsWeightedMean` | internal/server/dashboard_camera2.go:393-402 | the average accuracy is the mean of the algorithms' accuracies weighted by their alarm counts |
| `Dashboard.TopThreeDominates` | internal/server/dashboard_camera2.go:420-428 | the first three sorted devices carry their exact counts over the rows, and no device left out has more rows than one among them |
| `Dashboard.TrendPoints` | internal/server/dashboard_camera2.go:637-656 | the cursor loop lists every bucket of the range with its count, zero included |
| `Dashboard.TrendTotal` | internal/server/dashboard_camera2.go:629-656 | for rows inside the range the zero-filled trend adds up to the number of rows |
| `Text.AtoiItoa` | internal/gb28181/service.go:1023-1029 | the number parser reads back what the printer writes, for all 64-bit values |
| `Text.TrimSpaceTrims` | internal/gb28181/service.go:1000-1013 | trimming leaves nothing to trim and is the identity on trimmed text |
| `Text.TrimSpaceDrops` | internal/gb28181/service.go:1000-1013 | and takes away only white space, only at the ends |
| `Text.AtoiSigned` | internal/gb28181/service.go:1023-1029 | a sign may be given, and what does not fit 64 bits is no number |
| `Text.AtoiCases` | internal/gb28181/service.go:1023-1029 | leading zeros do not matter; nothing, a sign alone or any other character is no number |

## Left out

- Case folding covers ASCII letters only; white space is Go's, also where Python strips.
- Random SIP tokens, fresh ids, clocks, the detector, the large model's answers and their JSON decoding are parameters; converting the model's relative boxes to pixels is not modelled.
- Floating-point rounding and NaN: reals are used. Daylight-saving zones: buckets are those of a fixed offset.
- AlarmClipRuntime.Runtime.Recover: models recovery as one sequential pass whose database writes succeed, because their failures are covered by the protocol's runs; alarms and timers that fire during it are covered by the protocol's runs only as far as its single steps go.
- AlarmClipProtocol.ClipsAreDelivered: does not cover deletion of events or sessions by storage cleanup, and speaks of attached events only; alarms whose start failed are never attached.
- AlarmClipRuntime.Runtime.Start: source ids and event ids are taken as already trimmed, non-blank and without duplicates.
- AlarmClipDeadlines.ServedIff: takes an alarm, a deadline or a closing as one step and leaves restarts to recovery; AlarmClipTimers has the steps apart.
- AlarmClipTimers.TimerIff: leaves out crashes, which lose all timers, and the closing of a source; `outrun` and `gone` are histories of the run.
- The delay computation of timers, and which goroutine runs a callback when.
- SIP response channels of InvitePlay and dialogs, digest checking, XML bodies, MESSAGE and REGISTER handling.
- SipFraming.Reader.ReadPacket: the stream is a finite string; read time-outs are not modelled, and a body larger than memory is not refused.
- Coalescer.Scheduler.Work: calls interleave between the locked sections of one worker; panics in a body are not modelled.
- TestJobProtocol.FinishedIsComplete: database writes succeed and the process does not stop in the middle of a job.
- TestJobProtocol.NeverStuck: queue and retry list are flags per item, because both are kept in sort order; HTTP-level retries inside one analysis count as one analysis.
- FrameTasks.CameraTask.ProcessFrame: motion detection, the callback and the processing of several frames at once are left out; configurations do not change during a run.
- UsageLedger.Tables.RecordUsage: text columns are not truncated, 64-bit overflow of counters is not modelled, and stopping tasks at the quota is left out.
- SequentialJobs.Job.Execute: expiry and purging of finished jobs, messages and hints are left out; result texts matter only for being blank.
- Dashboard.TopThreeDominates: the order of equal counts (by name) is not modelled; names, labels and the current-state figures of the page are left out.
- Letterbox.FillCanvas: pixels are single numbers; interpolation, non-maximum suppression and the SSD input are library behaviour.
- Notification.EventTable.HandleAlarm: handlers run one at a time; two handlers that query before either inserts could both notify. Ids in the table are the trimmed ones.
- HTTP handlers, permissions, storage paths, ffmpeg and media-server calls, device management and static pages would add only easy members.
