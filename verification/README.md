# Shared-state monitor: a Dafny model

The program is a client/server monitor around one JSON state file. Forked processes (TCP connections,
the UDP service, one alert process that serves all temperature sensors in turn, emergency handlers) read
the whole file, edit one section and write the whole text back. This project models that behaviour and
proves what holds of it.

| file | what it models |
|---|---|
| `CText.dfy` | C strings as bytes without NUL, `%d`, `atoi`, case-insensitive comparison |
| `Decimal.dfy` | numbers as exact decimals: `strtod`, `atof`, `%f` and plain number text |
| `Readings.dfy` | what `atoi` and `atof` make of every text, and what is stored for it |
| `Json.dfy`, `JsonMerge.dfy` | cJSON objects: ordered members, exact lookup, deletion ignoring case, override, merge |
| `JsonText.dfy` | `cJSON_Print` and `cJSON_Parse` on objects, strings, numbers, true, false and null |
| `Layout.dfy`, `Grammar.dfy` | the printed layout, flat; which texts are read, and that a text broken off is not |
| `CjsonHandler.dfy`, `UnitTests.dfy` | the JSON handler on text buffers; its cases and its unit tests as theorems |
| `StateFile.dfy`, `StateJobs.dfy` | the state file, its three writers, paths, schema |
| `FullDisk.dfy` | what a write without room leaves behind |
| `Dispatch.dfy` | commands and credentials |
| `SharedState.dfy` | the interleaved read-modify-write protocol |
| `StateRuns.dfy`, `Provenance.dfy`, `AlertCounters.dfy`, `EveryRun.dfy` | what holds in every run |
| `OneSensor.dfy`, `LostAlerts.dfy` | what a single alert process adds, and a run in which its alert is lost |
| `Turns.dfy` | what one process does with a job, a request or a failure, from any point of any run |
| `ShippedState.dfy`, `ShippedFile.dfy` | the shipped state file, as members and line by line |
| `Connection.dfy`, `SilentExit.dfy` | a TCP connection process with re-entrant signal handlers; when it exits in silence |
| `ConnectionTurns.dfy` | what it does with each request, signal and failing call |
| `Client.dfy`, `ClientTurns.dfy` | the client's menu and its recursive polling loop; each choice, signal and message |
| `Transport.dfy` | chunking, frames, receiving |
| `Request.dfy`, `AdminSession.dfy` | an administrator's update from end to end |
| `CaseClash.dfy` | a run in which two keys that differ only by case lose an update |

How the model is set up:

- cJSON itself is not part of this repository. Its contract is written out in `Json.dfy` and
  `JsonText.dfy`: lookup finds the first member with exactly the key, deletion unlinks the first member
  that matches ignoring case, adding appends; printing puts one member on a line, with tabs; parsing
  follows sections 4 and 7 of RFC 8259, skips bytes up to the blank and ignores text after the value.
- Every printer takes the text that follows it, so `Print(j, d, rest)` is `j` at depth `d` followed by
  `rest`, and `Text(j)` is the text of a whole item.
- A run of the protocol is any sequence of actions of any number of processes; an action that is not
  enabled changes nothing. Each `read_file` and each `write_file` is one atomic step, and either may fail
  because the file cannot be opened. No mutual exclusion is assumed: the semaphore is private to each
  process after the fork, and the alert and emergency writers never take it. Any number of alert processes
  is allowed except where a result says that there is at most one, as in the program.
- `history[i]` is the file's text after the first `i` log entries. `Faithful(history, log)` says that
  only writes change the file and that each write stores its job applied to the text it had read;
  `SharedState.RunInvariant` proves it of every run.
- A connection process is a stack of frames. A signal is blocked while its own handler is on the stack
  (no `SA_NODEFER`), otherwise any handler may interrupt any frame. The SIGTERM handler is the only one that
  returns; the handlers do not restart system calls, so it breaks off a receive that waits, and the process
  then exits for the failed receive.
- The client's environment is a list of exchanges, each with the message to read and the signals that
  arrive before the send, while the receive waits and before the flag is tested. The handlers are installed
  without `SA_RESTART`, so a SIGINT while the receive waits makes it return without a message, and the
  client goes on, as it does when the call fails; the reply stays in the socket for a later receive. The
  server answers requests in order, and requests are numbered so that a trace says which one a reply
  answers. A signal delivered while frames unwind, or when a message is already there to read, counts as
  arriving at the next of these points.

Six expectations turn out not to hold unconditionally, and each has its exact condition:

- Setting a supply does not always take effect: when the first key that matches ignoring case is another
  one, the update deletes that other key and leaves the old value in force
  (`Json.OverrideHitsTheOtherKey`); a lone administrator gets there with two requests
  (`CaseClash.UpdatesCanBeLost`). It takes effect for every value if and only if the key is absent, or the
  first match ignoring case is the key itself and it is not repeated (`Json.OverrideReadsBack`,
  `AdminSession.UpdateTakesEffectIff`).
- Alerts can be lost: the alert process completes a write, and an emergency process that had read before
  writes the old counter back (`LostAlerts.AlertsCanBeLost`). A counter is exact all along a run if and
  only if no read-to-write window contains an alert write for it (`AlertCounters.CounterExactIff`); with
  one alert process its own windows never do, so those of the other writers decide
  (`OneSensor.OneSensorExactIff`). What is lost otherwise is accounted for exactly
  (`AlertCounters.CounterConservation`).
- A connection process does not always say goodbye (`Connection.InterruptedEndIsSilent`,
  `SilentExit.TermEndsQuietly`). One that has exited sent no end message if and only if a receive, reading
  the status, an update or a send failed, an unblocked SIGINT or SIGTSTP arrived while a frame stood
  between closing the pipe and sending, or a SIGTERM broke off a waiting receive
  (`SilentExit.SilentExitIff`, `SilentExit.ExactlyOneEndIff`).
- The reply the client shows is not always the one to the request it just sent: after a SIGINT that leaves
  the polling, an update is answered by the old status reply (`Client.OldReplyShown`). It is if and only if
  no waiting receive was broken off before (`Client.InStepIff`, `Client.MenuInStepIff`); after that every
  reply is as many requests late as receives were broken off (`Client.RepliesLag`).
- A failing write does not always leave the file as it was: without room for the new text the file no longer
  reads, and no writer ever writes again (`FullDisk.FullDiskDamages`). With a file that cannot be opened, or
  an update that cannot be made, it does (`FullDisk.SaveOutcomes`).
- A message longer than one buffer does not always arrive as it is: the last send passes the length of
  the whole message. Everything sent is the message if and only if it fits one buffer or is a whole
  number of buffers (`Transport.ArrivesExactlyIff`).

## Model

| member | source | states |
|---|---|---|
| CText.AtoiIntText | lib/libsta/src/alert_module.c:95-97 | `atoi` inverts `%d` for every integer, whatever non-digit text follows |
| Readings.AtoiReads | lib/libsta/src/alert_module.c:95-97 | `atoi` of blanks, a sign, digits and any text after them is the number written |
| Readings.AtofReads | lib/libsta/src/cjson_handler.c:123-126 | `atof` of blanks, a sign, digits with a point, an exponent and any text after them is exactly the number written |
| Readings.IntegerReads | lib/libsta/src/cjson_handler.c:123-126 | the same for digits without a point or an exponent |
| Readings.HexFractionReads | lib/libsta/src/cjson_handler.c:123-126 | the same for hexadecimal digits with a point and a binary exponent |
| Readings.TextStaysText | lib/libsta/src/cjson_handler.c:124-147 | under INTPARSE a value with no number at its head, the empty one included, is stored as the string it is |
| Readings.SignStaysText | lib/libsta/src/cjson_handler.c:124-147 | so is one with a sign or a point and no digit after it |
| Readings.NamesBecomeNull | lib/libsta/src/cjson_handler.c:124-126 | infinity and not-a-number, in any case, are stored as null |
| Readings.NumberIsStored | lib/libsta/src/cjson_handler.c:124-147 | any other value is stored as the number at its head, or as the string it is when that is zero |
| Readings.MillionthsAreNearest | lib/libsta/src/cjson_handler.c:68-81 | `%f` of a number with more than six places shows the nearest number of millionths, ties to even |
| Readings.NumberTextsHavePlaces | lib/libsta/src/cjson_handler.c:68-81 | `%f` text has a minus only when negative and exactly six places |
| CText.FoldIs | lib/libsta/src/cjson_handler.c:156-163 | equality ignoring case is equality up to capitals of the 26 letters |
| Decimal.DecTextReads | lib/libsta/src/cjson_handler.c:123-126 | every decimal printed in full is read back by `strtod` as itself, and to its last character |
| Decimal.FloatTextReads | lib/libsta/src/cjson_handler.c:68-81 | `atof` of `%f` is the number rounded to six places, for every decimal |
| Decimal.FloatTextExactIff | lib/libsta/src/cjson_handler.c:68-81 | so it gives the number back if and only if six places are enough |
| Json.OverrideReadsBack | lib/libsta/src/cjson_handler.c:156-170 | reading a key back after override gives every value written if and only if the first member matching it ignoring case is the key itself and it does not occur again |
| Json.OverrideLookup | lib/libsta/src/cjson_handler.c:156-170 | under that condition override is a map update: the key reads the value, every other key its old one |
| Json.OverrideHitsTheOtherKey | lib/libsta/src/cjson_handler.c:156-170 | when the first match ignoring case is another key, wherever it stands, override removes a member of that key and every other lookup keeps its old value, the overridden key's included |
| Json.OverrideKeepsUnique | lib/libsta/src/cjson_handler.c:156-170 | override keeps keys unique up to case if and only if its key is there exactly or absent up to case |
| Json.OverrideRun | lib/libsta/src/cjson_handler.c:100-181 | over every admissible sequence of adds keys stay unique up to case and each key reads the last value written |
| JsonMerge.MergeClosedForm | lib/libsta/src/cjson_handler.c:266-276 | the delete-and-append loop gives the first object's members not named by the second, in order, then the second's |
| JsonMerge.MergeIsRightBiased | lib/libsta/src/cjson_handler.c:266-276 | a key of the second object reads the second's value, any other the first's |
| JsonMerge.MergeIsIdempotent | lib/libsta/src/cjson_handler.c:266-276 | merging an object with itself changes nothing, order included |
| JsonMerge.MergeIsAssociative | lib/libsta/src/cjson_handler.c:266-276 | merging is associative, member for member and in the same order |
| JsonText.ValueRoundTrip | lib/libsta/src/cjson_handler.c:82-96 | parsing undoes printing at any depth, for any string content, and stops where the value ends |
| JsonText.RoundTrip | lib/libsta/src/cjson_handler.c:183-201 | an item printed into a buffer parses back to the same item |
| Layout.PrintIsFlat | lib/libsta/src/cjson_handler.c:183-201 | the printer writes the layout that is spelled out flat: one tab a level, one line a member, commas between |
| Layout.PairLayout | tests/unit/tests.c:44-52 | the exact text of an object with one string member |
| Layout.TwoLayout | tests/unit/tests.c:64-71 | the exact text of an object with two members |
| Layout.NestedLayout | tests/unit/tests.c:54-61 | the exact text of an object inside an object |
| Layout.EscapesAre | lib/libsta/src/cjson_handler.c:183-201 | the exact text of each byte that has an escape of its own |
| Layout.ControlsAre | lib/libsta/src/cjson_handler.c:183-201 | the exact text of every other control byte |
| ShippedFile.ShippedTextIs | data/state_summary.json:1-21 | the text of the shipped state is the shipped file, line by line, for any two events |
| ShippedFile.ShippedFileIsGood | data/state_summary.json:1-21 | the file as shipped is read back as that state and meets the schema |
| Grammar.SpacedReads | lib/libsta/src/cjson_handler.c:112-121 | a value is read whatever blanks stand between its parts |
| Grammar.ValueExtends | lib/libsta/src/cjson_handler.c:112-121 | what was read stays read, and the same, whatever text is put behind it |
| Grammar.BrokenOffFails | lib/libsta/src/lib_handler.c:86-92 | no part of a printed object, short of all of it, is read as anything |
| Grammar.NumberedByteReads | lib/libsta/src/cjson_handler.c:112-121 | bytes written by number are read, with digits of either case |
| Grammar.NoTrailingComma | lib/libsta/src/cjson_handler.c:112-121 | after a comma another member must come |
| CjsonHandler.GetValueOfKey | lib/libsta/src/cjson_handler.c:24-98 | 0 with the value's text, 1 without a value to copy under the key, -1 on text that does not parse; strings as they are, numbers by `%f`, objects printed, nothing else |
| CjsonHandler.AddKeyValue | lib/libsta/src/cjson_handler.c:100-181 | the buffer's new text and the return code for every flag combination; the buffer is untouched on error and when the key exists without OVERRIDE |
| UnitTests.AddReads | lib/libsta/src/cjson_handler.c:156-170 | what the text after an add is read as, with and without the key and OVERRIDE |
| UnitTests.AddToBadText | lib/libsta/src/cjson_handler.c:112-121 | a text that does not parse counts as an empty object |
| UnitTests.AddToOtherItem | lib/libsta/src/cjson_handler.c:112-181 | an item that is not an object takes no members |
| UnitTests.FlagsReplace | lib/libsta/src/cjson_handler.c:123-170 | the three flag combinations in use replace a key and make a string, a number or an object of the value |
| UnitTests.AddKeyValueTest | tests/unit/tests.c:44-52 | the first unit test, byte for byte |
| UnitTests.AddObjectTest | tests/unit/tests.c:54-61 | the second unit test, byte for byte |
| UnitTests.AddToTwoTest | tests/unit/tests.c:64-71 | the third unit test, for any keys, values and inner object |
| UnitTests.GetNestedTest | tests/unit/tests.c:94-109 | a nested object is copied out with the indentation of a whole item |
| CjsonHandler.MergeJsonStrings | lib/libsta/src/cjson_handler.c:241-293 | the loop writes the text of the merged object; on text that does not parse it writes nothing |
| CjsonHandler.MergedTextReads | lib/libsta/src/cjson_handler.c:258-287 | the merged text reads back as the first object's other members followed by the second's |
| CjsonHandler.CountRoundTrip | lib/libsta/src/cjson_handler.c:68-81 | a stored count, a number or the string "0", read back and passed to `atoi` gives the count |
| CjsonHandler.CountTextFits | lib/libsta/src/cjson_handler.c:71-79 | the text of any 32-bit count fits the 20-byte buffer with its terminator |
| CjsonHandler.StoredCountReadsBack | lib/libsta/src/cjson_handler.c:100-181 | the whole trip of a count through a stored buffer returns the count |
| CjsonHandler.NumberPassesOnIff | lib/libsta/src/cjson_handler.c:123-126 | a number copied out of one object is stored as the same number in another if and only if it is not zero and six places are enough |
| StateFile.File.Read | lib/libsta/src/lib_handler.c:3-67 | the file's text; an empty file and one that cannot be opened are errors |
| StateFile.File.Write | lib/libsta/src/lib_handler.c:68-94 | the file's new text; an empty buffer is not written; a file that cannot be opened stays, and one without room keeps only the head of the text, both with an error |
| StateFile.File.SetSupplyStatus | lib/libsta/src/supplies_data_handler.c:8-44 | the file and the reply buffer hold the updated text, or the file is untouched, or it has run out of room; the return code says which |
| StateFile.File.AddEntry | lib/libsta/src/alert_module.c:72-112 | the file holds the text with the counter raised, or is untouched, or has run out of room |
| StateFile.File.AddEvent | lib/libdyn/src/emergency_handler.c:42-72 | the file holds the text with the event recorded, or is untouched, or has run out of room |
| StateFile.PutAtReads | lib/libsta/src/supplies_data_handler.c:17-41 | a tree update is seen at its path and below, and on no path that parts from it |
| StateFile.PutAtOnlySets | lib/libsta/src/supplies_data_handler.c:17-41 | the same for all other paths at once |
| StateFile.SupplyRefinesPutAt | lib/libsta/src/supplies_data_handler.c:13-43 | two reads, three overrides and the conversions through text are one tree update at supplies/category/key |
| StateFile.SupplyFailsExactly | lib/libsta/src/supplies_data_handler.c:13-41 | the failures before the write, all of them, for every key and every value text: no supplies, no category |
| StateFile.AlertFailsExactly | lib/libsta/src/alert_module.c:78-109 | the same for an alert: no alerts, no such entry |
| StateFile.EventFailsExactly | lib/libdyn/src/emergency_handler.c:47-69 | the same for an event: no emergency section |
| FullDisk.FullDiskDamages | lib/libsta/src/lib_handler.c:68-94 | a write of any of the three writers without room for it leaves a file that never reads again and on which no writer writes |
| FullDisk.SaveOutcomes | lib/libsta/src/lib_handler.c:68-94 | what each outcome of a write leaves in the file |
| StateJobs.ApplyIsTree | lib/libsta/src/supplies_data_handler.c:8-44 | each of the three writers, conversions included, is its job on the parsed state |
| StateJobs.AlertIsTree | lib/libsta/src/alert_module.c:72-112 | the alert writer is one edit of the alerts section |
| StateJobs.EventIsTree | lib/libdyn/src/emergency_handler.c:42-72 | the event writer is one edit of the emergency section |
| StateJobs.JobSetsOnePath | lib/libsta/src/alert_module.c:83-111 | each writer sets one path of the stored state and leaves every path that parts from it as it was; for alerts without further condition |
| StateJobs.ApplyKeepsSchema | lib/libsta/src/supplies_data_handler.c:18-41 | each writer keeps the schema, the top-level keys, the alert entries and the categories |
| StateJobs.JobsCommute | lib/libsta/src/cjson_handler.c:156-170 | writers of different sections commute on every lookup, although each moves its section to the end |
| ShippedState.ShippedStateIsGood | data/state_summary.json:1-21 | the shipped state meets the schema that every run keeps |
| Dispatch.TcpReactions | server/src/server.c:333-353 | what a request leads to, in the words of the request: command 0, 1, 2, the name and the password |
| Dispatch.UdpReactions | server/src/server.c:372-386 | the same for UDP, where nobody modifies |
| Request.CommandDecides | server/src/server.c:642-658 | what a request built with any number for its command leads to, over TCP and UDP |
| Request.RequestIsServedIff | server/src/server.c:614-640 | an update request is served if and only if both name and password are the administrator's |
| SharedState.RunInvariant | server/src/server.c:487-507 | in every run only writes change the file, each write stores its job applied to the text it had read, and a process holds a supply job only after a granted request |
| EveryRun.RunsKeepSchema | lib/libsta/src/supplies_data_handler.c:13-43 | in every run the file parses, meets the schema and keeps its key sets |
| EveryRun.RunsKeepProvenance | server/src/server.c:341-348 | in every run the supplies are the initial ones after some modify requests received over TCP with the administrator's credentials; each such write edits a section stored earlier, each other write puts one back |
| EveryRun.RunsKeepRoles | server/src/server.c:357-388 | only TCP processes write supplies, sensors alerts, emergency processes events; UDP processes write nothing |
| EveryRun.RunsAreTheirLineage | lib/libsta/src/supplies_data_handler.c:13-43 | in every run the file is the sequential execution of a subsequence of the writes, the one its reads-from chain names |
| EveryRun.ClearRunsAreSequential | lib/libdyn/src/emergency_handler.c:47-71 | with no write inside another's window the file is the sequential execution of all writes in order |
| EveryRun.RunsConserveCounters | lib/libsta/src/alert_module.c:78-111 | in every run a counter is its initial value plus completed alerts minus lost ones, and never ahead |
| LostAlerts.AlertsCanBeLost | lib/libdyn/src/emergency_handler.c:47-71 | from every good state, for every entry and every event, one alert process and one emergency process can complete an alert write and leave the counter as it was |
| OneSensor.AlertsStayApart | server/src/server.c:83-89 | with at most one alert process no alert is ever written inside an alert's window |
| OneSensor.OneSensorExactIff | lib/libsta/src/alert_module.c:41-51 | with at most one alert process a counter is exact all along a run if and only if no window of another writer contains an alert write for it |
| EveryRun.RunsKeepItems | lib/libsta/src/supplies_data_handler.c:27-41 | whatever reads at supplies/category/key was there at the start or is the value of a granted request for that category and key |
| Turns.EventIsRecorded | lib/libdyn/src/emergency_handler.c:42-72 | from any point of any run an event recorded alone reads as its text, or as the number at the head of its text |
| Turns.AlertIsCounted | lib/libsta/src/alert_module.c:72-112 | from any point of any run an alert counted alone adds one to its counter and nothing to the others |
| Turns.RequestIsTaken | server/src/server.c:333-353 | what a request makes of its process: gone, with an update to do, or ready for the next |
| Turns.FailureIsDropped | server/src/server.c:491-496 | a failing update ends a connection process and leaves the file alone |
| Turns.EndedIsFinal | server/src/server.c:335-337 | a process that has ended never acts again |
| StateRuns.SchemaInEveryRun | lib/libsta/src/alert_module.c:84-109 | the schema and key sets at every point of every run |
| StateRuns.FileIsItsLineage | lib/libsta/src/alert_module.c:78-111 | at every point the file is the sequential execution of its lineage |
| StateRuns.LineageWithinOrder | lib/libsta/src/alert_module.c:78-111 | the lineage is the write order with some writes left out |
| StateRuns.NothingLostIff | lib/libsta/src/supplies_data_handler.c:13-43 | no write is ever lost if and only if no write falls inside another write's window |
| Provenance.SuppliesProvenance | server/src/server.c:341-348 | provenance at every point of every run, every edited section one stored earlier; sensor and emergency writers may restore an old section, never invent one |
| Provenance.ItemProvenance | server/src/server.c:569-602 | provenance of every single member of every category, at every point of every run |
| Provenance.NoGrantNoChange | server/src/server.c:614-640 | as long as no request received over TCP reads the administrator's word for both name and password, the supplies never change |
| AlertCounters.JobCounts | lib/libsta/src/alert_module.c:95-99 | an alert adds one to its counter, every other write leaves every counter as it read it |
| AlertCounters.CounterConservation | lib/libsta/src/alert_module.c:72-112 | the exact account of each counter at every point of every run |
| AlertCounters.CounterNeverAhead | lib/libsta/src/alert_module.c:72-112 | no interleaving makes a counter exceed its start plus the completed alert writes |
| AlertCounters.CounterExactIff | lib/libsta/src/alert_module.c:72-112 | a counter is exact all along a run if and only if no window of any writer contains an alert write for it |
| AlertCounters.CounterStaysInt | lib/libsta/src/alert_module.c:95-97 | a counter never falls below its start and the increment never overflows while start plus alerts is an int |
| Connection.StepKeeps | server/src/server.c:429-485 | the invariant of the frame stack, the pipe and what was sent, over every step and signal |
| Connection.AtMostOneEndAndLast | server/src/server.c:429-485 | over every order of requests and signals at most one end message is sent and nothing after it |
| Connection.SuccessSaysEnd | server/src/server.c:469-484 | a process that exits successfully has sent the end message, last |
| Connection.UndisturbedEnd | server/src/server.c:432-484 | left alone, `end_conn` sends the end message and exits successfully |
| ConnectionTurns.CloseIsAnswered | server/src/server.c:333-337 | a close request, left alone, ends the connection: the end message and a successful exit |
| ConnectionTurns.RequestIsAnswered | server/src/server.c:333-353 | every other request is answered by its own message and the loop goes on |
| ConnectionTurns.FailuresExit | server/src/server.c:324-328 | each failing call ends the process with nothing more said |
| ConnectionTurns.SignalEndsConnection | server/src/server.c:660-680 | a SIGINT or SIGTSTP, wherever it finds an open connection, ends it with the end message and success |
| ConnectionTurns.UnreadPipeStillEnds | server/src/server.c:447-462 | when the pipe cannot be read the end message is sent all the same and the exit is a failure |
| ConnectionTurns.SignalGetsThrough | server/src/server.c:687-694 | a signal interrupts whatever runs unless its own handler is on the stack |
| Connection.InterruptedEndIsSilent | server/src/server.c:429-436 | a SIGINT or SIGTSTP between closing the pipe and sending ends the process without an end message |
| SilentExit.SilentExitIff | server/src/server.c:429-485 | over every run, a process exits without an end message if and only if a call failed, a SIGINT or SIGTSTP got through while a frame was about to send it, or a SIGTERM broke off the receive |
| SilentExit.TerminatedByTerm | server/src/server.c:319-328 | a receive is broken off only by a SIGTERM that arrived while the loop waited in it |
| SilentExit.TermEndsQuietly | server/src/server.c:324-328 | a SIGTERM while the loop waits ends the process with nothing sent |
| SilentExit.ExactlyOneEndIff | server/src/server.c:429-485 | with no call failing, a finished process sent exactly one end message if and only if no such signal came |
| Connection.InterruptedNeverResumes | server/src/server.c:660-685 | what a SIGINT or SIGTSTP handler interrupts never runs again |
| Connection.LoopNeverSeesFlag | server/src/server.c:642-647 | the command loop never runs with the flag that SIGINT sets |
| Client.Process.TakeReply | client/src/client.c:105-123 | one receive: it reads the oldest unread reply, or the end key and stops the client, or nothing when a SIGINT breaks it off or it fails |
| Client.Process.RecvAndCheck | client/src/client.c:105-134 | the loop around a recursive call does what the flat poll loop does, and no frame runs its body twice |
| Client.Process.Menu | client/src/client.c:36-54 | the main loop does what its flat specification does, invalid choices included |
| ClientTurns.QuitEnds | client/src/client.c:189-191 | choosing the end stops the client with nothing sent, whatever would have been chosen next |
| ClientTurns.TstpEnds | client/src/client.c:276-280 | SIGTSTP ends the client at each of its three points, with nothing done after it |
| ClientTurns.EndMessageEnds | client/src/client.c:117-120 | the end message ends the client |
| ClientTurns.UpdateReturns | client/src/client.c:183-188 | an update is sent once, its reply read, and the client is at its menu again |
| ClientTurns.IntLeavesPolling | client/src/client.c:270-275 | SIGINT leaves the polling at each of its points: the exchange under way is the last |
| ClientTurns.UserPolls | client/src/client.c:24-30 | a user who is not the administrator polls from the start, until a signal or the end |
| Client.EveryRun | client/src/client.c:36-54 | in every run send and receive calls alternate strictly, each modify request chosen goes out once, and whatever is sent with the polling flag set is the status request |
| Client.RepliesLag | client/src/client.c:105-108 | in every run each reply read is exactly as many requests late as receives were broken off before it, by a SIGINT or a failing call |
| Client.InStepIff | client/src/client.c:105-108 | a reply read answers the request just sent if and only if no receive was broken off before |
| Client.MenuInStepIff | client/src/client.c:266-285 | a client at its menu has read every reply if and only if no receive was broken off, and then all its replies were in step |
| Client.OldReplyShown | client/src/client.c:266-275 | a run in which the reply read after an update is the one to the status request before it |
| Client.PollKeeps | client/src/client.c:125-131 | polling that starts with the status request in the buffer sends nothing else |
| Client.StatusIsPolled | client/src/client.c:177-182 | the first menu option polls until a signal or the end, reading the replies in order |
| Transport.StrNCpy | lib/libsta/src/comunication_handler.c:196-213 | the bytes of the string, then zeros; the rest of the buffer untouched |
| Transport.SendToSocket | lib/libsta/src/comunication_handler.c:217-229 | what one send takes from the staging buffer, or the failure |
| Transport.SendChunks | lib/libsta/src/comunication_handler.c:199-212 | the loop sends the whole chunks in order and stops at the first failing send; it ends with slice at the last whole chunk |
| Transport.SendMessage | lib/libsta/src/comunication_handler.c:188-215 | everything the chunking loop and its last send pass to the socket, in order, up to the first failing send |
| Transport.WholeCarries | lib/libsta/src/comunication_handler.c:199-212 | the loop's sends are exactly the whole buffers of the message |
| Transport.ArrivesExactlyIff | lib/libsta/src/comunication_handler.c:188-215 | everything sent is the message if and only if it fits one buffer or is a whole number of buffers |
| Transport.TailLengthThatWorks | lib/libsta/src/comunication_handler.c:213-214 | with the remaining length for the last send every message would arrive |
| Transport.RecvTcpMessage | lib/libsta/src/comunication_handler.c:231-242 | the buffer is the frame followed by zeros; an empty reading is an error |
| Transport.FrameRoundTrip | client/src/client.c:58-65 | a text shorter than the buffer, sent as a padded buffer, reads back as the same text |
| Request.RequestReads | client/src/client.c:183-188 | what the server takes from the request is what the client put in |
| Request.RequestSays | client/src/client.c:183-188 | the eight fields of an update request, key by key |
| Request.RequestFits | client/src/client.c:202-255 | the request fits the 1024-byte buffer with its terminator, escapes included |
| AdminSession.BuildModify | client/src/client.c:155-255 | the eight fields added to a cleared buffer in the client's order |
| AdminSession.Server.SetSupply | server/src/server.c:569-602 | the fields of the request update the file, or the file is left as a failing update leaves it |
| AdminSession.Server.Serve | server/src/server.c:319-355 | one turn of the command loop: the reply, the file and whether the process goes on, for every request and every state of the disk |
| AdminSession.NoticesSay | server/src/server.c:525-567 | the two notices carry the keys the client looks for |
| AdminSession.RequestArrives | server/src/server.c:614-658 | the administrator's request fits the frame, is command 2, passes the credentials and carries its fields |
| AdminSession.DeliverModify | server/src/server.c:319-355 | the request built, framed, received whole and dispatched is saved and answered, or fails, for every state of the file and the disk |
| AdminSession.AdminUpdate | server/src/server.c:487-507 | end to end: supplies/food or medicine/key is the amount, every path that parts from it unchanged, the reply is the stored text, and the bytes sent back are that text if and only if it fits one buffer or fills whole ones |
| AdminSession.UpdateTakesEffectIff | lib/libsta/src/supplies_data_handler.c:27-41 | the update takes effect for every amount if and only if the key is absent or is itself the first match ignoring case and not repeated |
| CaseClash.UpdatesCanBeLost | server/src/server.c:319-355 | from every good state a lone administrator's two granted requests, for a key that differs from a present one only by case, leave the first amount in force and delete the present key |
| CaseClash.ShippedUpdateCanBeLost | data/state_summary.json:8-11 | the shipped state is one of them: two updates of Vegetables leave the first and delete vegetables |

## Left out

- CjsonHandler.AddKeyValue: numbers are exact decimals, not doubles: rounding to a double, overflow to
  infinity and underflow to zero are not modelled, nor is the exponent that cJSON prints for very large and
  very small numbers; null is printed for what is not finite, as cJSON does.
- JsonText.RoundTrip: arrays, `\u` escapes beyond one ASCII byte, the byte order mark and cJSON's limits on
  nesting and on the length of a number are outside the grammar; text that uses them counts as text that
  does not parse.
- Transport.SendMessage: bytes past the staging buffer are an arbitrary parameter.
- StateFile.File.Read: a seek or a read that fails counts as a file that cannot be opened.
- StateFile.File.Write: no other process sees the file between the emptying and the end of the write; in the
  interleaved protocol a write takes the whole text or nothing.
- Client.Process.Menu: the prompts and the terminal output are left out.
- Client.Process.TakeReply: a reply is read whole by one receive, and every request gets one; a send is not
  interrupted and does not fail.
- AdminSession.Server.Serve: the buffers that the program allocates without clearing before building a
  notice count as empty; the end message of a close request is sent as in an undisturbed `end_conn`, and
  its interruption is the subject of `Connection.dfy`.
- Uninitialised, null and freed pointers and buffer capacities, except where a capacity is stated.
- Creating, binding and connecting sockets; a TCP frame is received whole.
- The fork fan-out, the wait loop and the message queue: processes appear by an action.
- The signal that `end_conn` sends to the parent, and the shutdown of the UDP process.
- Temperatures, timestamps, log files, sleeps and menus on the terminal.
