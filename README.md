# libtorrent-daemon core, modelled in Dafny

libtorrent-daemon is a BitTorrent daemon built on libtorrent and controlled
through a web interface. This project models four pieces of its `main.cpp`:

- **The limited user's settings filter** (`limited_user::allow_settings`).
  It decides which `settings_pack` ids a user of group 2 may read and
  write. Module `LimitedUser`, file `limited_user.dfy`.
- **The error log timestamp.** The `ctime` line is copied into a 256-byte
  buffer with `strncpy`. Then an in-place loop cuts the buffer at its first
  `'\n'` or `'\r'`. Module `Timestamp`, file `timestamp.dfy`.
- **The error logger** (`error_logger`). Its constructor opens the log and
  subscribes to six alert types. `handle_alert` dispatches on the alert
  type. The peer-disconnect case filters out 17 error codes in every build,
  plus the SSL "unknown protocol" code when the build uses OpenSSL. The four
  storage-failure cases have no `break`, so each falls through to the cases
  below it. The destructor unsubscribes and closes the file. Module
  `ErrorLog`, file `error_logger.dfy`.
- **The shutdown state machine of the main loop.** The loop runs while
  `!quit || !ok_to_quit()`. Each iteration pops, traces and dispatches
  alerts, posts torrent updates, and on the first iteration that sees
  `quit` calls `save_all`. The same iteration swaps in the force-quit
  signal handlers. The loop breaks on `force_quit`. Module `MainLoop`,
  file `main_loop.dfy`.

`alerts.dfy` (module `Alerts`) holds the shared vocabulary: alert values,
`boost::system::error_code` as a category and a value, and the
error-condition comparison `errc` uses. `wrappers.dfy` holds `Option`.

The model is proved in two ways. Code that changes state step by step is
modelled as methods with loops: the timestamp trim loop, the logger class,
and the main loop with its body. Each method is proved equal to a pure
specification function. The properties the daemon relies on are then
lemmas about those functions, for example:

- each alert produces at most one log line;
- `save_all` runs at most once;
- a forced exit always comes after `save_all`;
- torrent updates are never posted after `save_all`;
- the debug log mirrors the dispatched alerts in order.

Some inputs come from the environment. The clock's `ctime` text, whether
`fopen` succeeds, and whether the build uses OpenSSL are parameters. Signal
arrival is an input, and so are `ok_to_quit()` and the alerts popped each
iteration. Text produced by libtorrent and boost is a parameter too: the
endpoint printer, operation names, category names and error messages, in
the `Formatters` value.

## Model

| member | source | states |
|---|---|---|
| LimitedUser.Find | main.cpp:73 | Models `std::find` over the table. The index is the first position holding the value, or the table's length exactly when the value is absent. |
| LimitedUser.AllowSettings | main.cpp:54-77 | A name is allowed if and only if it is non-negative and one of the twelve listed `settings_pack` ids. |
| LimitedUser.AllowGetSettings | main.cpp:78 | Reading a setting is allowed exactly for the listed non-negative ids. |
| LimitedUser.AllowSetSettings | main.cpp:79 | Writing a setting is allowed exactly for the listed non-negative ids. |
| LimitedUser.AllowedSettingsTable | main.cpp:58-72 | The table has twelve distinct, non-negative entries, so `num_allowed` is 12. |
| LimitedUser.GetAndSetAgree | main.cpp:78-79 | Reading and writing permissions are the same predicate. |
| LimitedUser.ListedSettingsAllowed | main.cpp:56-76 | Every listed id is allowed, and the negative names -1 to -12 are refused. `NegativeRefused` covers every negative name. |
| LimitedUser.NegativeRefused | main.cpp:56 | Every negative name is refused, and so are reading and writing it. This includes the -1 "no libtorrent setting" marker. |
| Alerts.NatDigits | main.cpp:185-187 | The decimal digits of the `%d` error value: non-empty, all digits. `NatDigitsValue` proves they denote the value. |
| Alerts.Decimal | main.cpp:185-187 | `%d` rendering: a leading '-' exactly for negative values, followed by the digits. `DecimalValueRoundTrip` proves the text denotes the value. |
| Alerts.NatDigitsValue | main.cpp:185-187 | Reading the digits back, most significant first, gives the number printed. |
| Alerts.DecimalValueRoundTrip | main.cpp:185-187 | Reading the `%d` text back gives the signed value printed, so different error values print differently. |
| Timestamp.CString | main.cpp:185 | What `%s` prints of a char buffer: a prefix with no NUL in it, stopping at the first NUL or at the end. |
| Timestamp.StrncpyImage | main.cpp:166-167 | `strncpy` into a 256-char buffer. The first `min(len, 256)` characters are copied and the rest is NUL padding. |
| Timestamp.FirstLineBreak | main.cpp:168-173 | The first index holding '\n' or '\r' if there is one, and `None` exactly when no such index exists. |
| Timestamp.Trimmed | main.cpp:168-173 | Definition of the buffer after the trim loop: the first line break becomes NUL. `TrimTimestamp` is proved to compute it, and `TrimmedChangesOnlyFirstBreak` states what it changes. |
| Timestamp.TrimTimestamp | main.cpp:168-173 | The in-place loop puts NUL at the first line break and stops. It leaves the buffer unchanged when there is no line break. |
| Timestamp.TimestampText | main.cpp:165-173 | Definition of the `%s` printing of the trimmed buffer: `HandleAlert` prints it, and `TimestampHasNoLineBreak` and `TimestampOfCtimeLine` describe it. |
| Timestamp.TrimmedChangesOnlyFirstBreak | main.cpp:168-173 | Trimming keeps the length. It changes no character other than the first line break, which becomes NUL. |
| Timestamp.TimestampHasNoLineBreak | main.cpp:165-173 | The printed timestamp never contains '\n' or '\r', for any clock text. |
| Timestamp.TimestampOfCtimeLine | main.cpp:165-173 | For a `ctime` line (text, then '\n') that fits the buffer, the printed timestamp is the text without its newline. |
| Timestamp.CStringWithoutNul | main.cpp:185 | A buffer with no NUL prints in full. |
| Timestamp.CStringAtNul | main.cpp:171 | A buffer prints up to its first NUL. |
| ErrorLog.AlertCast | main.cpp:179-247 | `alert_cast` succeeds exactly when the alert has the requested type, and returns the alert itself. |
| ErrorLog.DisconnectGuard | main.cpp:194-215 | Definition of the source's chain of `!=` tests, in source order, with the SSL test only in OpenSSL builds. `DisconnectGuardIsTable` ties it to the suppression table. |
| ErrorLog.LogEntry | main.cpp:175-253 | Reference definition of the one line an alert earns, if any. `SwitchIsOneLine` proves the switch as written equal to it. |
| ErrorLog.ErrorText | main.cpp:185-187 | Definition of the peer-error format after the timestamp. Each `%s` argument is printed up to its first NUL. |
| ErrorLog.DisconnectText | main.cpp:216-218 | Definition of the disconnect format after the timestamp. Each `%s` argument is printed up to its first NUL. |
| ErrorLog.FailureText | main.cpp:225-251 | Definition of the storage-failure format after the timestamp. Each `%s` argument is printed up to its first NUL. |
| ErrorLog.NextCase | main.cpp:221-253 | The case each storage-failure case falls through to. Each step moves one case down, and the last case falls off the switch. |
| ErrorLog.CaseBody | main.cpp:221-252 | Definition of one storage case's body: it writes its labelled line if its `alert_cast` succeeds, and nothing otherwise. |
| ErrorLog.FallThrough | main.cpp:221-253 | Definition of entering a storage case and falling through every case below it. `FallThroughPastOthers` and `FallThroughWritesOwnLine` state what it writes. |
| ErrorLog.SwitchLines | main.cpp:175-253 | Definition of the switch as written, with `break` after the two peer cases and fall-through after the storage cases. `SwitchIsOneLine` proves it equal to `LogEntry`. |
| ErrorLog.DisconnectGuardIsTable | main.cpp:194-215 | The chain of 17 or 18 `!=` tests is false exactly when the code matches an entry of the suppression table. `errc` entries match by error condition, the others match exactly. |
| ErrorLog.DisconnectSuppressionsTable | main.cpp:194-215 | The table has 18 entries with OpenSSL and 17 without. The SSL unknown-protocol code is suppressed exactly in OpenSSL builds. |
| ErrorLog.FallThroughPastOthers | main.cpp:221-253 | Falling through the later storage cases writes nothing for an alert of an earlier type, because every later `alert_cast` fails. |
| ErrorLog.FallThroughWritesOwnLine | main.cpp:221-253 | Entering the storage case of the alert's own type writes exactly that case's labelled line, despite the missing `break`s. |
| ErrorLog.SwitchIsOneLine | main.cpp:175-253 | The switch as written, fall-through included, writes exactly the reference log entry for the alert, and never more than one line. |
| ErrorLog.DisconnectLoggedIff | main.cpp:191-219 | A peer-disconnect alert writes its "disconnect" line if and only if its error is not suppressed, and nothing otherwise. |
| ErrorLog.PeerErrorLoggedIff | main.cpp:177-190 | A peer-error alert is logged unless it carries the SSL unknown-protocol code in an OpenSSL build. The disconnect suppressions do not apply to it. |
| ErrorLog.FailureAlertsLabelled | main.cpp:221-252 | Each storage-failure alert writes one line with its own label, error and message. Alerts of unhandled types write nothing. |
| ErrorLog.SubscriptionIsLoggableKinds | main.cpp:145-152 | The six subscribed alert types are exactly the types for which `handle_alert` can write something. |
| ErrorLog.LoggedAlertOfKind | main.cpp:177-252 | Each subscribed alert type has an alert that the switch logs: one whose error matches no suppression. |
| ErrorLog.LineShape | main.cpp:185-251 | Every log line starts with the timestamp, continues with a tab and ends with a newline. |
| ErrorLog.LineFormat | main.cpp:185-251 | A line built by the shared `"%s\t...\n"` shape has the timestamp, then a tab, and ends with a newline. |
| ErrorLog.LinesHaveNoNul | main.cpp:185-251 | With a NUL-free timestamp, no line the switch writes contains a NUL, whatever the foreign formatters return. |
| ErrorLog.LineHasNoNul | main.cpp:185-251 | Helper lemma: the shared line shape adds no NUL to a NUL-free timestamp and text. |
| ErrorLog.ErrorTextHasNoNul | main.cpp:185-187 | The peer-error text has no NUL. |
| ErrorLog.DisconnectTextHasNoNul | main.cpp:216-218 | The disconnect text has no NUL. |
| ErrorLog.FailureTextHasNoNul | main.cpp:225-251 | A storage-failure text with a NUL-free label has no NUL. |
| ErrorLog.FailureLabelHasNoNul | main.cpp:225-249 | Helper lemma: no storage label contains a NUL. |
| ErrorLog.DecimalHasNoNul | main.cpp:185-251 | Helper lemma: the `%d` rendering contains no NUL. |
| ErrorLog.ErrorLogger.constructor | main.cpp:128-154 | The log is open exactly when a file name was given and `fopen` succeeded. A failure is reported exactly when a file name was given and `fopen` failed. Output is redirected only after a successful open and only if asked. The six types are subscribed exactly when a file name was given. |
| ErrorLog.ErrorLogger.HandleAlert | main.cpp:162-253 | With the log closed, nothing is written. Otherwise the log grows by the switch's lines, computed on the trimmed timestamp, which equal the reference entry. |
| ErrorLog.ErrorLogger.Close | main.cpp:156-160 | The destructor leaves no subscription and the file closed. |
| MainLoop.TraceLines | main.cpp:421-425 | One debug-log line per popped alert, in queue order. |
| MainLoop.Signal | main.cpp:27-35 | Definition of a signal's effect under the installed handler: `quit` under the graceful one, `force_quit` under the forceful one. `RaiseSignal` is proved to compute it. |
| MainLoop.LoopTest | main.cpp:415 | Definition of the loop condition: the loop goes on while `quit` is unset or `ok_to_quit()` is false. `LoopEndsOnlyWhen` states when it ends the loop. |
| MainLoop.SaveCheck | main.cpp:429-435 | Definition of the flags after the save check: the first check that sees `quit` sets `shutting_down` and installs the forceful handlers. |
| MainLoop.TickEffects | main.cpp:418-435 | Definition of one iteration's effects in statement order: trace lines, dispatch, the post unless shutting down, then `save_all` when saving. |
| MainLoop.Tick | main.cpp:417-436 | Definition of one iteration, with a signal possible at three points and the `break` on `force_quit`. `Iteration` is proved to compute it, and `TickFacts` and `TickTrace` describe it. |
| MainLoop.RunLoop | main.cpp:413-437 | Definition of the loop over a finite input list. `MainLoop` is proved to compute it, and the run lemmas below are stated about it. |
| MainLoop.RaiseSignal | main.cpp:27-35 | The installed handler runs: `sighandler` sets `quit`, `sighandler_forcequit` sets `force_quit`. |
| MainLoop.WriteDebugTrace | main.cpp:419-426 | The loop over the alert queue appends exactly one trace line per alert, in order. |
| MainLoop.Iteration | main.cpp:417-436 | One loop body computes the flags, effects and `break` decision of the specification `Tick`. |
| MainLoop.MainLoop | main.cpp:413-437 | The `while` loop computes exactly the specification run: its outcome, final flags, effects and number of iterations. |
| MainLoop.CountAppend | main.cpp:413-437 | Helper lemma: the number of occurrences of an effect in a concatenation is the sum of the counts of its parts. |
| MainLoop.CountAbsent | main.cpp:413-437 | Helper lemma: an effect's count is zero exactly when the effect does not occur. |
| MainLoop.TickFacts | main.cpp:417-436 | One iteration keeps the flags consistent. It calls `save_all` exactly when not yet shutting down and `quit` is set, and then installs the forceful handlers. It posts torrent updates exactly when not yet shutting down, and breaks only once shutting down. |
| MainLoop.SaveAllAtMostOnce | main.cpp:428-435 | Over any run, `save_all` is called at most once. It is called once exactly when the run started shutting down. |
| MainLoop.LoopEndsOnlyWhen | main.cpp:415-436 | The loop ends only when the test fails (`quit` set and `ok_to_quit()` true) or at the `break` with `force_quit` set. |
| MainLoop.ForcedExitFollowsSaveAll | main.cpp:429-436 | A forced exit always comes after exactly one `save_all`. |
| MainLoop.GracefulExitSavedIff | main.cpp:415-435 | On a graceful exit, `save_all` was called if and only if `shutting_down` is set. |
| MainLoop.LateSignalExitsWithoutSaveAll | main.cpp:415-436 | A signal after the save check, followed by `ok_to_quit()` returning true, ends the loop without `save_all`. |
| MainLoop.EarlySignalExitsWithoutSaveAll | main.cpp:410-415 | A signal before the loop, with `ok_to_quit()` true at once, ends it before any iteration. |
| MainLoop.PostOnlyBeforeShutdown | main.cpp:428-432 | `post_torrent_updates` is never called after `save_all`, and never from a state already shutting down. |
| MainLoop.NoPostAfterSaveAppend | main.cpp:428-432 | Helper lemma: joining two effect lists with no post after a save keeps that property, provided the first list saves only if the second never posts. |
| MainLoop.TickEffectsEndWithSave | main.cpp:427-435 | Within one iteration nothing is posted after `save_all`. |
| MainLoop.TracedDispatchedAppend | main.cpp:421-427 | Helper lemma: the traced alerts and the dispatched batches of a concatenation are those of its parts, concatenated. |
| MainLoop.SingleEffect | main.cpp:421-427 | Helper lemma: a single effect traces only its own alert and dispatches only its own batch. |
| MainLoop.TracedLines | main.cpp:421-425 | The trace lines of a batch trace exactly that batch and dispatch nothing. |
| MainLoop.FlattenAppend | main.cpp:421-427 | Helper lemma: flattening distributes over concatenation. |
| MainLoop.TickTrace | main.cpp:418-427 | One iteration dispatches its popped batch once. It traces that batch when the debug log is open, and nothing when it is closed. |
| MainLoop.TickEffectsTrace | main.cpp:418-435 | An iteration's effects dispatch the popped batch once, and trace it exactly when the debug log is open. |
| MainLoop.TraceBeforeDispatch | main.cpp:419-427 | The iteration's trace lines, in queue order, come before its dispatch: together they open its effects. |
| MainLoop.TraceMirrorsDispatch | main.cpp:413-437 | Over a run, the batches are dispatched in iteration order. The debug log, when open, holds one line per dispatched alert in the same order. |
| MainLoop.MirrorStep | main.cpp:413-437 | Helper lemma: one iteration that mirrors its batch, placed before a run that mirrors its inputs, gives a run that mirrors all of them. |

## Left out

- Command-line parsing, `print_usage`, daemonizing, the pid file, and the setup of the session, web server, users and settings (`main.cpp` outside lines 27-35, 54-79, 128-253 and 410-437): these are I/O and calls into libtorrent, not logic of this core.
- The other `limited_user` permission methods (lines 44-51 and 80-81): each returns a constant `true`.
- `fopen`, `fprintf` to stderr, `dup2`, `fclose` and `strerror`: their outcome is a parameter (`fopenSucceeds`) or a recorded flag (`openFailureReported`, `redirectedOutput`, `fileOpen`), not a file-system model.
- `time`, `ctime` and `usleep`: the clock's text is a parameter of `HandleAlert`, and the one-second sleep is a point at which a signal may arrive.
- `print_endpoint`, `operation_name`, `error_category::name`, `error_code::message` and `alert::message`: foreign formatters, given as functions in `Formatters`. What they return is uninterpreted. Only its `%s` printing up to the first NUL is modelled.
- Signal delivery is asynchronous in the daemon. The model lets a signal land at three points of each iteration and before the loop. A signal between `quit` being read at the save check and the flag assignments is not distinguished from one just after it.
- The internals of `alert_handler::dispatch_alerts`, `session::pop_alerts`, `post_torrent_updates`, `save_resume::save_all` and `ok_to_quit`: these calls are recorded as effects, and their results (`ok_to_quit`, the popped alerts) are inputs.
- The numeric values of the `settings_pack` ids and `libtorrent::errors` enumerators are stand-ins, since their header is not part of this model. Only their distinctness matters to the code modelled. The errno values are those of Linux, and the SSL code is the literal 336027900 from the source.
- `strncpy` and `%s` on a buffer with no NUL: when the `ctime` text fills all 256 bytes, the C code reads past the buffer. `CString` stops at the end of the buffer instead.
- MainLoop.MainLoop: runs over a finite sequence of per-iteration inputs, so a run that has not ended when the inputs run out has the outcome `StillRunning` and non-termination is not modelled.
- The code after the loop (`fclose(debug_file)`, stopping the web server, saving settings): plain I/O.
