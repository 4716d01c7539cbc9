# MOD Application: engine supervision, modelled and proved in Dafny

The MOD desktop application (`source/mod_host.py`) starts the audio engine as a child process. It watches the
engine's output, and once the engine listens it starts the embedded web server on its own thread. Before the engine
is stopped, the web server is stopped. This project models that supervision core and proves its rules:

- `pytext.dfy` (module `PyText`): the Python string operations the core relies on, with CPython semantics for
  the cases it uses. These are `str.strip`, `QByteArray.trimmed`, `str.replace(p, "")`, `str.split("\n")`,
  `re.split` on a character class and the `in` substring test. It also defines `Count`, the number of
  occurrences of a value in a sequence, which the proofs use to count recorded effects and events.
- `backend_log.dfy` (module `BackendLog`): `slot_backendRead`. It cuts one chunk of engine output into lines.
  One pass of three `replace` calls deletes the logger's colour sequences, `strip()` removes the surrounding white
  space, and empty lines are skipped. A corrected pipeline, which deletes colour sequences until none is left,
  stands beside it (see Findings). Each line is then classified by literal markers. A ready line arms
  `slot_ingenStarted` one second later. A fatal line arms `slot_ingenStartError`.
- `dump.dfy` (module `Dump`): the dump window. It parses the `unix://` or `tcp://` address, and the class
  `DumpReader` holds the byte buffer `fTmpData`, which survives from one timer tick to the next.
- `web_server.dfy` (module `WebServer`): `WebServerThread`. It prepares the web server on its first run only,
  emits `running` and then serves. `stopWait` stops it and waits.
- `host.dfy` (module `Host`): the lifecycle of `HostWindow`. The class `HostWindow` holds the process state and
  the flags `fFirstBackendInit`, `fFirstBackendInit2` and `fStoppingBackend`. It records everything the window
  does to the outside world, in order, in `effects`. Its methods are the slots: start, stop, restart, finished,
  error, read, ingen started, ingen start error, and the two stop-and-wait helpers.

How the model treats the collaborators:

- **Wait outcomes.** The outcome of `waitForFinished(2000)` and `QThread.wait(5000)` is a parameter of the
  method that waits (`WaitOutcome`, `joined`).
  - When the engine exits within the wait, Qt delivers its `error(Crashed)` and `finished` signals during the
    wait. The model runs them at that point (`Died`).
  - A killed engine reports its exit later, through `ProcessExited`.
- **Timers.** `QTimer.singleShot` is recorded as a `Schedule` effect naming the slot and the delay.
- **Outside calls.** The calls into the `webserver` module are recorded as `WebServer.Event`s.
  `SESSION.reconnect()` is recorded as `Reconnect`.
- **Error reports.** The `qWarning` and the dialog of `slot_backendError` are recorded by error code, as
  `LogError(error)` and `ShowError(error)`. Their common text is `CouldNotStart(error)`, the fixed prefix followed
  by `ErrorText(error)`.
- **Ready wins.** A line holding both a ready and a fatal marker counts as ready, because the code tests the
  ready marker first and the fatal markers only in an `elif` (`LineTimers`, `TimersSpec`).
- **Silent first start.** The window's comment says the first automatic start should not show an error, but
  the constructor clears the flag before any start (see Findings). The model records the code as written in the
  plain constructor. It gives the evidently intended behaviour as a second constructor,
  `WithSilentFirstStart`.

## Model

| member | source | states |
|---|---|---|
| PyText.Strip | source/mod_host.py:875-876 | `str.strip()` and `trimmed()`: the result is a slice of the input and neither of its ends is white space |
| PyText.StripRemovesSpace | source/mod_host.py:875-876 | everything stripping removes, before and after the kept slice, is white space |
| PyText.LeadingIn | source/mod_host.py:875-876 | every character that stripping removes at the front is white space |
| PyText.TrailingIn | source/mod_host.py:875-876 | every character that stripping removes at the back is white space |
| PyText.TrailingBelow | source/mod_host.py:875-876 | when the first character is not white space, stripping the back cannot remove the whole text |
| PyText.StripStripped | source/mod_host.py:876 | stripping a stripped string changes nothing |
| PyText.Delete | source/mod_host.py:876 | `str.replace(p, "")`: each non-overlapping occurrence of `p` is removed, scanning from the left; its properties are those of `DeleteLength` |
| PyText.DeleteLength | source/mod_host.py:876 | `replace(p, "")` never lengthens; it shortens exactly when `p` occurs, and is the identity otherwise |
| PyText.DeleteSkip | source/mod_host.py:876 | deleting leaves in place a prefix in which the pattern cannot start |
| PyText.DeleteFirst | source/mod_host.py:876 | `replace(p, "")` as Python describes it, scanning from the left: with the leftmost occurrence of `p` right after `a`, the result is `a` followed by the deletion of what follows that occurrence |
| PyText.DeleteKeepsPrefix | source/mod_host.py:876 | a prefix in which no occurrence of the pattern starts is kept whole, in front of the deletion of the rest |
| PyText.Split | source/mod_host.py:875 | `split("\n")` and `re.split('[:/]', …)` give at least one piece and no piece holds a separator |
| PyText.SplitJoin | source/mod_host.py:875 | splitting on one separator loses nothing: joining the pieces on it gives the text back |
| PyText.SplitTwo | source/mod_host.py:209 | a text with one separator splits into the two pieces around it |
| PyText.SplitHead | source/mod_host.py:209-210 | the split has a second piece iff some separator occurs; then the first piece is the text before the first separator and the second is the head of the split of the rest |
| BackendLog.DeleteColoursOnceLength | source/mod_host.py:876 | one pass of the three-`replace` chain never lengthens a line, shortens every line holding a colour sequence, and leaves the others unchanged |
| BackendLog.DeleteColoursOnce | source/mod_host.py:876 | the three chained `replace(..., "")` calls, applied once each; its properties are those of `DeleteColoursOnceLength` |
| BackendLog.CleanLineAsWritten | source/mod_host.py:876 | the cleaning of one line as written: one pass of the chain, then `strip()`; `AsWrittenLeavesColour` and `CleanLineAgrees` relate it to `CleanLine` |
| BackendLog.AsWrittenLeavesColour | source/mod_host.py:876 | the line cleaning as written leaves a colour sequence in `"\x1b[" + "\x1b[0m" + "0m"` |
| BackendLog.DeleteColours | source/mod_host.py:876 | the corrected deletion leaves no colour sequence, never lengthens, and is the identity on lines without one |
| BackendLog.StripKeepsNoColour | source/mod_host.py:876 | stripping a colour-free line cannot create a colour sequence |
| BackendLog.CleanLine | source/mod_host.py:876 | a cleaned line holds no colour sequence and has no leading or trailing white space |
| BackendLog.CleanLineIdempotent | source/mod_host.py:876 | cleaning a cleaned line changes nothing |
| BackendLog.CleanLineAgrees | source/mod_host.py:876 | whenever one pass of the source's chain leaves no colour sequence, the corrected cleaning gives exactly the source's line |
| BackendLog.RawLines | source/mod_host.py:875 | trimming, decoding, stripping and splitting a chunk always yields at least one line |
| BackendLog.Kept | source/mod_host.py:875-878 | the loop over the raw lines that skips empty cleanings, for any cleaning of one line: every kept line is non-empty, and there are no more of them than raw lines |
| BackendLog.KeptFrom | source/mod_host.py:875-878 | every kept line is the non-empty cleaning of a raw line, which it names |
| BackendLog.KeptKeep | source/mod_host.py:875-878 | every raw line whose cleaning is non-empty has that cleaning among the kept lines, at a position it names |
| BackendLog.KeptSelect | source/mod_host.py:875-878 | a line is kept iff it is non-empty and the cleaning of some raw line (soundness and completeness) |
| BackendLog.KeptAppend | source/mod_host.py:875-878 | the raw lines' order is kept: the lines of two runs are those of the first followed by those of the second, and one raw line gives its cleaning unless it is empty |
| BackendLog.KeptAgree | source/mod_host.py:875-878 | two cleanings that agree on every raw line keep the same lines |
| BackendLog.KeptIdempotent | source/mod_host.py:875-878 | with an idempotent cleaning, keeping the kept lines again changes nothing |
| BackendLog.KeptTimers | source/mod_host.py:875-889 | over the raw lines: `slot_ingenStarted` is armed iff the cleaning of some raw line holds the ready marker, `slot_ingenStartError` iff the cleaning of one holds a fatal marker without it |
| BackendLog.KeptReady | source/mod_host.py:875-884 | some kept line holds the ready marker iff the cleaning of some raw line does |
| BackendLog.KeptFatal | source/mod_host.py:875-889 | some kept line holds a fatal marker and not the ready one iff the cleaning of some raw line does |
| BackendLog.ReadLines | source/mod_host.py:875-878 | the lines as the source hands them to the classifier: `Kept` with the one-pass cleaning, so which lines and in what order is given by `KeptSelect` and `KeptAppend`; each is non-empty and stripped, and there are no more of them than raw lines |
| BackendLog.ReadLinesAgree | source/mod_host.py:875-878 | when one pass removes every colour sequence of every raw line, the source's lines are the corrected pipeline's and hold no colour sequence |
| BackendLog.AsWrittenNotIdempotent | source/mod_host.py:875-878 | the source's pipeline is not idempotent: it hands on the nested reset as a reset, which a second pass drops |
| BackendLog.CleanLines | source/mod_host.py:875-878 | the corrected pipeline: `Kept` with the corrected cleaning; every line it passes on is non-empty, stripped and colour-free, and there are no more of them than raw lines |
| BackendLog.CleanLinesIdempotent | source/mod_host.py:875-878 | the corrected pipeline is idempotent: cleaning its lines again gives the same lines |
| BackendLog.LineTimers | source/mod_host.py:883-889 | a ready line arms `slot_ingenStarted` after 1000 ms even if it holds a fatal marker; a fatal line without the ready marker arms `slot_ingenStartError`; any other line arms nothing |
| BackendLog.TimersAppend | source/mod_host.py:875-889 | the timers of two runs of lines are those of each run, in order |
| BackendLog.TimersShape | source/mod_host.py:883-889 | at most one timer per line, each 1000 ms out, and none for `slot_backendStart` |
| BackendLog.TimersSlot | source/mod_host.py:875-889 | a read arms a slot exactly when one of its lines does |
| BackendLog.TimersSpec | source/mod_host.py:883-889 | a read arms `slot_ingenStarted` iff some line holds the ready marker, and `slot_ingenStartError` iff some line holds a fatal marker without the ready marker |
| BackendLog.ReadChunk | source/mod_host.py:871-889 | the timers one read schedules, with the source's single pass; its properties are those of `ReadChunkSpec` |
| BackendLog.AsWrittenMissesReady | source/mod_host.py:876-884 | a ready line whose marker a nested reset interrupts reaches the classifier with a reset in it and schedules nothing, while the corrected pipeline schedules `slot_ingenStarted` for it |
| BackendLog.ReadChunkSpec | source/mod_host.py:871-889 | for a whole chunk as the source processes it: the classified lines are non-empty and stripped; `slot_ingenStarted` is armed iff one holds the ready marker, `slot_ingenStartError` iff one holds a fatal marker without it; the same two iff's stated over the chunk's raw lines, through their one-pass cleaning; when one pass cleans every line, they are colour-free and the read arms what the corrected read arms |
| BackendLog.CleanReadChunkSpec | source/mod_host.py:871-889 | for the corrected read: the classified lines are non-empty, stripped and colour-free, and the two slots are armed as `TimersSpec` says, both over the classified lines and over the corrected cleaning of the chunk's raw lines |
| Dump.DecimalDigitsValue | source/mod_host.py:210 | the decimal text of a natural number is a digit string whose value is that number |
| Dump.PyInt | source/mod_host.py:210 | `int()` in base 10: white space around the digits skipped, one optional sign, digit groups with single underscores, anything else `None`; `PyIntDecimal` and `PyIntSpaces` state its behaviour |
| Dump.PyIntDecimal | source/mod_host.py:210 | `int()` reads back every integer written in decimal |
| Dump.PyIntSpaces | source/mod_host.py:210 | `int()` skips surrounding white space but refuses a number behind U+001C, which `strip()` would remove |
| Dump.DecimalInjective | source/mod_host.py:210 | two integers with the same decimal text are equal |
| Dump.DecimalHasNoSeparator | source/mod_host.py:209 | a decimal number holds neither `:` nor `/` |
| Dump.ParseAddress | source/mod_host.py:204-213 | `unix://P` gives exactly the path `P`; a `tcp://` address without `:` or `/` gives the missing port, and otherwise its host is the text before the first separator and its port the integer of the next piece, or that piece is refused as an invalid port; any other scheme is refused with the address |
| Dump.ParseFormat | source/mod_host.py:204-210 | parsing recovers every Unix address and every TCP address whose host holds no separator |
| Dump.Step | source/mod_host.py:245-249 | one received byte: a newline emits the buffer as a line and empties it, any other byte is appended; its properties are those of `FeedRebuilds` and `FeedWellFormed` |
| Dump.Feed | source/mod_host.py:238-249 | the bytes fed one at a time, as the `recv(1)` loop does; its properties are those of `FeedConcat`, `FeedRebuilds`, `FeedWellFormed` and `ChunkIndependence` |
| Dump.FeedConcat | source/mod_host.py:238-249 | feeding two byte runs in turn is feeding their concatenation |
| Dump.FlattenSnoc | source/mod_host.py:245-247 | an emitted line contributes its bytes and one newline to the received text |
| Dump.FeedRebuilds | source/mod_host.py:238-249 | the emitted lines, each followed by a newline, then the buffer, are exactly the bytes received; earlier lines are kept |
| Dump.FeedWellFormed | source/mod_host.py:238-249 | feeding keeps the buffer and every emitted line free of newlines |
| Dump.ChunkIndependence | source/mod_host.py:238-249 | the lines and the buffer do not depend on how the bytes are split across timer ticks |
| Dump.ThreeTicks | source/mod_host.py:238-249 | a line split over three ticks is emitted once, whole |
| Dump.DumpReader.constructor | source/mod_host.py:227 | a new reader has an empty buffer and has shown nothing |
| Dump.DumpReader.Dump | source/mod_host.py:238-249 | one tick feeds the available bytes one at a time; the new lines and buffer are those of `Feed`, the buffer stays newline-free and the bytes are rebuilt exactly |
| Dump.Open | source/mod_host.py:201-213 | a reader on the parsed address for every accepted address, and the raised error otherwise |
| WebServer.RunEvents | source/mod_host.py:64-70 | a run prepares once if not yet prepared and never otherwise, and ends by emitting `running` and then serving |
| WebServer.RunKeepsHistory | source/mod_host.py:64-70 | a run keeps prepare-at-most-once and running-before-serve, and leaves the thread prepared |
| WebServer.ShutdownKeepsHistory | source/mod_host.py:72-74 | a stop keeps the history sound |
| WebServer.RunningBeforeServeAt | source/mod_host.py:69-70 | every call that starts serving comes directly after the emission of `running` |
| WebServer.PrepareOnce | source/mod_host.py:59-70 | any number of start/stop cycles of one thread object prepare the web server once, in the first run |
| WebServer.WebServerThread.constructor | source/mod_host.py:59-62 | a new thread is not running, not prepared, and has made no calls |
| WebServer.WebServerThread.Start | source/mod_host.py:64-70 | `QThread.start()` does nothing to a running thread; otherwise the thread runs and `run` makes its calls |
| WebServer.WebServerThread.StopWait | source/mod_host.py:72-74 | `webserver.stop()` is called, and the wait succeeds iff the thread finished in time or was not running |
| WebServer.WebServerThread.Terminate | source/mod_host.py:1157 | the thread stops without further calls into the web server |
| Host.BackendArgs | source/mod_host.py:743-747 | the arguments are `-e -n mod-app-<port> -S /tmp/mod-app-<port>.sock`, then the pedalboard iff one is set |
| Host.HostPath | source/mod_host.py:739-741 | the configured program, or the default path when the setting ends in `mod-host`; `HostWindow.BackendStart` spawns it |
| Host.BackendArgsSpec | source/mod_host.py:744 | the pedalboard is recoverable from the arguments, and the address the dump slot builds (line 800) names the engine's socket |
| Host.PortsSeparateEngines | source/mod_host.py:744 | two ports share a JACK client name or a socket only if they are equal |
| Host.ErrorText | source/mod_host.py:1119-1130 | a code gets the unknown-error text (with the source's spelling) iff it is none of -2, FailedToStart, Crashed, Timedout and WriteError |
| Host.ErrorTextIdentifies | source/mod_host.py:1119-1130 | the text identifies the error, except among the codes without a text of their own |
| Host.ErrorEffects | source/mod_host.py:851-868 | what `slot_backendError` does once the web server is stopped; its properties are those of `ErrorPolicy` |
| Host.ErrorPolicy | source/mod_host.py:851-868 | a crash while stopping leaves no trace; any other error is logged; it arms a restart iff in live-ISO mode; it is shown iff not live-ISO and not the first init; nothing else happens |
| Host.ErrorEffectsQuiet | source/mod_host.py:851-868 | reporting an error never starts the web server or reconnects |
| Host.ServerStopEffects | source/mod_host.py:1151-1157 | what `stopAndWaitForWebServer` does to the outside world; its properties are those of `StopOrder` |
| Host.BackendStopEffects | source/mod_host.py:1141-1149 | what `stopAndWaitForBackend` does to the process; its properties are those of `StopOrder` |
| Host.StopOrder | source/mod_host.py:1141-1157 | as `slot_backendStop` calls the two helpers (lines 770-771), the web server is asked to stop before the engine is terminated; the thread is terminated iff it did not join; the engine is killed iff it did not exit in time |
| Host.QuietAppend | source/mod_host.py:896-900 | effects other than a web-server start or a reconnect keep the readiness count |
| Host.ReadyAppend | source/mod_host.py:896-900 | a readiness of the engine keeps the count (one reconnect per web-server start after the first) and ends the first-readiness phase |
| Host.Schedules | source/mod_host.py:884-889 | one `Schedule` effect per timer, in order |
| Host.SchedulesQuiet | source/mod_host.py:884-889 | arming timers neither starts the web server nor reconnects |
| Host.SchedulesKeepCount | source/mod_host.py:871-889 | arming the timers of a read keeps the readiness count |
| Host.WindowTitle | source/mod_host.py:1159-1165 | `setProperWindowTitle`; its properties are those of `TitleRoundTrip` |
| Host.TitleRoundTrip | source/mod_host.py:1159-1165 | the title starts with `MOD Application`, names the current pedalboard, and is the bare name iff none is set |
| Host.PresetsMenu | source/mod_host.py:1173-1183 | the presets of the menu, empty when no pedalboard is current; its properties are those of `PresetsMenuSpec` |
| Host.MatchingPresets | source/mod_host.py:1176-1183 | the presets of every pedalboard whose address contains the current one, in order; its properties are those of `MatchingPresetsSound` and `MatchingPresetsComplete` |
| Host.MatchingPresetsSound | source/mod_host.py:1176-1183 | every listed preset belongs to a pedalboard whose address contains the current one |
| Host.MatchingPresetsComplete | source/mod_host.py:1176-1183 | every preset of such a pedalboard is listed |
| Host.PresetsMenuSpec | source/mod_host.py:1173-1183 | a preset is in the menu iff a pedalboard is current and some pedalboard whose address contains it has the preset |
| Host.HostWindow.constructor | source/mod_host.py:344-513 | the window starts stopped with `fFirstBackendInit` already cleared by `slot_backendFinished(-1, -1)`, `fFirstBackendInit2` set, no pedalboard, an empty menu, and a start armed unless auto-start is off |
| Host.HostWindow.WithSilentFirstStart | source/mod_host.py:346-348 | the intended initial state, in which `fFirstBackendInit` stays set until the first start |
| Host.HostWindow.BackendStart | source/mod_host.py:732-749 | ignored unless the engine is stopped; otherwise it spawns the configured program (the default when the setting ends in `mod-host`) with `BackendArgs` |
| Host.HostWindow.StopAndWaitForWebServer | source/mod_host.py:1151-1157 | nothing happens unless the thread runs; otherwise it is stopped, and warned about and terminated when it does not join |
| Host.HostWindow.BackendFinished | source/mod_host.py:828-839 | clears `fFirstBackendInit` and `fStoppingBackend` and stops the web server |
| Host.HostWindow.BackendError | source/mod_host.py:842-868 | clears `fFirstBackendInit`, always stops the web server, then does what `ErrorEffects` says for the flag values it read |
| Host.HostWindow.Died | source/mod_host.py:462-464 | an exit delivers `error(Crashed)` first when the engine crashed, then `finished` |
| Host.HostWindow.StopAndWaitForBackend | source/mod_host.py:1141-1149 | no effect on a stopped engine; otherwise it sets `fStoppingBackend` and terminates, and it warns and kills when the wait fails; an exit within the wait is delivered and its crash ignored |
| Host.HostWindow.StopRunningBackend | source/mod_host.py:1145-1149 | on a live engine: sets `fStoppingBackend`, terminates, then waits as `WaitForBackend` does |
| Host.HostWindow.WaitForBackend | source/mod_host.py:1147-1149 | an exit within the wait is delivered at once and its crash ignored, stopping the web server; otherwise the engine is warned about and killed and the web server is untouched |
| Host.HostWindow.BackendStop | source/mod_host.py:752-771 | stops the web server, then the engine |
| Host.HostWindow.BackendRestart | source/mod_host.py:774-778 | a stop followed by a start; the start is ignored when the engine had to be killed |
| Host.HostWindow.IngenStarted | source/mod_host.py:892-900 | nothing once the engine has stopped; otherwise it reconnects except on the first readiness, clears `fFirstBackendInit2` and starts the web server thread |
| Host.HostWindow.IngenStartError | source/mod_host.py:903-905 | stops the engine, then reports error -2, which is never ignored |
| Host.HostWindow.BackendRead | source/mod_host.py:871-889 | arms exactly the timers `ReadChunk` gives for the chunk, with the source's single cleaning pass, and changes no flag |
| Host.HostWindow.ProcessStarted | source/mod_host.py:818-825 | the engine runs; the slot only updates the user interface |
| Host.HostWindow.ProcessFailedToStart | source/mod_host.py:842-868 | the engine is stopped and `slot_backendError(FailedToStart)` runs |
| Host.HostWindow.ProcessExited | source/mod_host.py:828-868 | a late exit is delivered as `Died` does |
| Host.HostWindow.UpdatePresetsMenu | source/mod_host.py:1167-1183 | the menu becomes `PresetsMenu` of the current pedalboard, built by the two loops of the source |
| Host.HostWindow.SelectPedalboard | source/mod_host.py:556-559 | as in `slot_pedalboardNew` (with `""`) and lines 583-585 of `slot_pedalboardOpen`: sets the pedalboard as given, rebuilds the menu, and gives exactly the title `WindowTitle` of that pedalboard, which names it |
| Host.AbsoluteFilePathSpec | source/mod_host.py:596 | `absoluteFilePath()` keeps the name at the end, is empty only for an empty name, keeps an absolute name, puts a relative one under the current directory, and, under an absolute current directory, is absolute and unchanged when resolved again |
| Host.HostWindow.OpenPedalboardLater | source/mod_host.py:595-598 | sets the pedalboard to `AbsoluteFilePath` of the file name, rebuilds the menu for it, and gives the title that names it |
| Host.SaveNameFresh | source/mod_host.py:298-313 | `SaveNameAccepted`, the check of `slot_nameChanged` that enables the save button: a name is accepted iff it is non-empty and differs from every existing name, and adding it to the existing names makes it refused |
| Host.FailFirstStart | source/mod_host.py:842-868 | the first start of a window (`slot_backendStart`, lines 732-749) spawns the engine and then reports `FailedToStart` with the window's first-init flag |
| Host.FirstFailureShown | source/mod_host.py:864-868 | as written, the failure of the automatic first start is shown in a dialog, because the flag was cleared at line 829 by the call at line 425 |
| Host.FirstFailureSilent | source/mod_host.py:346-348 | with the intended initial state, that failure is logged and not shown |

## Left out

- All widgets, dialogs, menus, the web view and its signals, the splash screen, `rebuild_database` and
  JavaScript evaluation: UI plumbing. The menu is modelled as the list of presets it would hold.
- QSettings: the configured host path enters as a constant of the window (`hostPathSetting`), and the default
  path and `USING_LIVE_ISO` enter as parameters.
- Real processes, threads, timers and sockets: their states are the values `ProcessState` and `running`. Wait
  outcomes are parameters, and a timer is an effect. The model does not run the armed slots by itself; a caller
  invokes the slot methods.
- `QThread.terminate()` is treated as stopping the thread at once.
- The UTF-8 decoding with `errors="ignore"` is the parameter `decode` in `BackendLog.RawLines`. The decoding of
  dump lines is not modelled: `DumpReader` keeps the lines as bytes.
- Dump.DumpReader.Dump: the `recv` loop's exit is modelled as the end of the bytes available on that tick. The
  `b""` end-of-stream case, where `recv` returns nothing and the source's loop keeps spinning, is socket
  behaviour and is not modelled.
- Dump.PyInt: accepts ASCII digits only. Python's `int()` also accepts other Unicode decimal digits.
- The verbose `print("INGEN:", line)` and the other `print` calls: console output.
- The `webserver`, `SESSION` and `jack` modules are not part of this model. Only the calls made into them are
  recorded.
- `slot_backendAlternateUI` and the `jack_connect` calls run external commands through `os.system`: not
  modelled.
- `slot_backendDump`: only its address is modelled (`DumpUri`, with `BackendArgsSpec` and `Dump.Open`); keeping
  one dump window per main window is UI state.
- Host.ErrorText: `self.tr(...)` is taken as the identity, so the texts (and `CouldNotStart`) are the untranslated
  English ones; under a translation they would differ, and `ErrorTextIdentifies` holds only as long as the
  translated texts stay distinct.
- Host.AbsoluteFilePathSpec: the current directory is a parameter, and the clean-up Qt applies to the
  resulting path, absolute names included (`.` and `..` segments, repeated slashes), is not modelled; so
  "an absolute name is kept" holds only for names already in Qt's clean form.
- `slot_pedalboardOpen` chooses the pedalboard in a dialog. Its state change (lines 583-585) is
  `SelectPedalboard`, and the restart that `openPedalboardNow` performs is `BackendRestart`. The refusal of
  an empty selection (lines 580-581, an information dialog and no state change) is not modelled:
  `SelectPedalboard("")` sets the empty pedalboard, which only `slot_pedalboardNew` does in the source.
- `SavePedalboardWindow`: only its name check (`SaveNameAccepted`) is modelled; the rest of the dialog is UI.
- Host.HostWindow.ProcessStarted: `slot_backendStarted` changes only widgets, so the model records just the
  process state.
- Host.HostWindow.BackendRead: reads are independent of each other, so a line split across two reads is seen
  as two lines. No chunk-independence is claimed for this path.

## Findings

| source | as written | input that shows it | evidently intended | confidence | as-written member | corrected member |
|---|---|---|---|---|---|---|
| source/mod_host.py:876 | each colour sequence is deleted in a single left-to-right pass | the line `"\x1b[" + "\x1b[0m" + "0m"` becomes `"\x1b[0m"` after the pass, so a colour sequence reaches the classifier | no line handed to the classifier holds a colour sequence | not executed; follows from the semantics of `str.replace` | BackendLog.AsWrittenLeavesColour | BackendLog.CleanLine |
| source/mod_host.py:876 | the single pass can also leave a reset inside the ready marker | `BrokenReady`, the ready marker with `"\x1b[" + "\x1b[0m" + "0m"` after `Listening on`, reaches the classifier as `Listening on\x1b[0m socket x` and arms no timer | the line arms `slot_ingenStarted`, as it does once the colour sequences are gone | not executed; needs a nested colour sequence in the engine's output | BackendLog.AsWrittenMissesReady | BackendLog.CleanReadChunkSpec |
| source/mod_host.py:425 | the constructor calls `slot_backendFinished(-1, -1)`, which clears `fFirstBackendInit` (line 829) before the first start | a window with auto-start whose engine program cannot be run: `error(FailedToStart)` finds the flag cleared and shows the dialog | the comment at line 346: the first attempt of the automatic start does not show an error | not executed; depends on the comment's intent | Host.FirstFailureShown | Host.FirstFailureSilent |

The slot itself (`BackendLog.ReadChunk`, `Host.HostWindow.BackendRead`) keeps the source's single pass. The
corrected pipeline (`CleanLine`, `CleanLines`, `CleanReadChunk`) stands beside it: `BackendLog.CleanLineAgrees` and
`BackendLog.ReadLinesAgree` prove that the two agree on every line where the single pass leaves no colour
sequence. `Host.HostWindow.WithSilentFirstStart` is the corrected initial
state. It enters the stopped state as `slot_backendFinished` does, by stopping the web server, but it keeps
`fFirstBackendInit`.
