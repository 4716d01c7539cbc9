/** The supervision part of the main window (`HostWindow`): it starts the
    engine process with the right arguments, reacts to the process's
    `started`, `error`, `finished` and `readyRead` signals, starts the web
    server thread once the engine reports that it listens, and stops the
    web server before the engine.

    Everything the window does to the outside world is recorded, in order,
    in `effects`: spawning or signalling the process, stopping or starting
    the web server thread, `SESSION.reconnect()`, timers armed with
    `QTimer.singleShot`, `qWarning` lines and error dialogs. How long the
    engine or the thread takes to stop is not known to the model: the
    outcome of `waitForFinished(2000)` and of `wait(5000)` is a parameter
    of the operation that waits. */
module Host {
  import opened PyText
  import opened BackendLog
  import Dump
  import WebServer

  // ---------------------------------------------------------------------------
  // Process and signal values

  /** `QProcess.state()`. */
  datatype ProcessState = NotRunning | Starting | Running

  /** What `waitForFinished(2000)` observed: the engine exited within the
      two seconds, normally or by crashing, or it was still running. */
  datatype WaitOutcome = Exited(exitCode: int, crashed: bool) | StillRunning

  // `QProcess.ProcessError` values.
  const FailedToStart: int := 0
  const Crashed: int := 1
  const Timedout: int := 2
  const ReadError: int := 3
  const WriteError: int := 4
  const UnknownError: int := 5
  /** The code the window itself uses for an engine that reported a fatal line. */
  const SocketError: int := -2

  // `QProcess.ExitStatus` values.
  const NormalExit: int := 0
  const CrashExit: int := 1

  /** An action of the window on the outside world. */
  datatype Effect =
    | Spawn(program: string, args: seq<string>)  // fProccessBackend.start(program, args)
    | TerminateBackend                           // fProccessBackend.terminate()
    | KillBackend                                // fProccessBackend.kill()
    | StopWebServer                              // fWebServerThread.stopWait()
    | TerminateWebServer                         // fWebServerThread.terminate()
    | StartWebServer                             // fWebServerThread.start()
    | Reconnect                                  // SESSION.reconnect()
    | Schedule(timer: Timer)                     // QTimer.singleShot(delay, slot)
    | Warning(text: string)                      // qWarning(text)
    | LogError(error: int)                       // qWarning(CouldNotStart(error))
    | ShowError(error: int)                      // QMessageBox.critical(..., CouldNotStart(error))

  const BackendKillWarning: string := "Backend failed top stop cleanly, forced kill"
  const ServerKillWarning: string := "WebServer Thread failed top stop cleanly, forced terminate"

  // ---------------------------------------------------------------------------
  // The engine's command line

  const HostSuffix: string := "mod-host"

  /** The program to run: the configured host path, unless it names the
      old `mod-host` binary, in which case the default engine is used. */
  function HostPath(setting: string, defaultPath: string): string {
    if EndsWith(setting, HostSuffix) then defaultPath else setting
  }

  /** `"mod-app-%s" % port`: the JACK client name of the engine. */
  function ClientName(port: int): string {
    "mod-app-" + Dump.Decimal(port)
  }

  /** `"/tmp/mod-app-%s.sock" % port`: the engine's control socket. */
  function SocketPath(port: int): string {
    "/tmp/mod-app-" + Dump.Decimal(port) + ".sock"
  }

  /** The address the dump window and the alternate UI connect to. */
  function DumpUri(port: int): string {
    "unix://" + SocketPath(port)
  }

  /** The engine's arguments: a fixed prefix naming the client and the
      socket, then the current pedalboard when there is one. */
  function BackendArgs(port: int, pedalboard: string): (args: seq<string>)
    ensures |args| == (if pedalboard == "" then 5 else 6)
    ensures args[..5] == ["-e", "-n", ClientName(port), "-S", SocketPath(port)]
    ensures pedalboard != "" ==> args[5] == pedalboard
  {
    ["-e", "-n", ClientName(port), "-S", SocketPath(port)] + (if pedalboard != "" then [pedalboard] else [])
  }

  /** The pedalboard an argument list asks the engine to load. */
  function ArgsPedalboard(args: seq<string>): string {
    if |args| > 5 then args[5] else ""
  }

  /** The pedalboard is recoverable from the arguments, and the socket the
      engine is told to create is exactly the one the dump window parses
      out of its address. */
  lemma BackendArgsSpec(port: int, pedalboard: string)
    ensures ArgsPedalboard(BackendArgs(port, pedalboard)) == pedalboard
    ensures Dump.ParseAddress(DumpUri(port)) == Dump.Ok(Dump.Unix(BackendArgs(port, pedalboard)[4]))
  {
    var uri := DumpUri(port);
    assert StartsWith(uri, Dump.UnixScheme);
    assert uri[7..] == SocketPath(port);
  }

  /** Two windows share a JACK client name, or a socket, only when they
      run on the same port. */
  lemma PortsSeparateEngines(p: int, q: int)
    ensures ClientName(p) == ClientName(q) ==> p == q
    ensures SocketPath(p) == SocketPath(q) ==> p == q
  {
    if ClientName(p) == ClientName(q) {
      assert ClientName(p)[8..] == Dump.Decimal(p);
      assert ClientName(q)[8..] == Dump.Decimal(q);
      Dump.DecimalInjective(p, q);
    }
    if SocketPath(p) == SocketPath(q) {
      var a := SocketPath(p);
      assert a[13..|a| - 5] == Dump.Decimal(p);
      assert SocketPath(q)[13..|a| - 5] == Dump.Decimal(q);
      Dump.DecimalInjective(p, q);
    }
  }

  // ---------------------------------------------------------------------------
  // Error texts and the error policy

  /** The error codes that have a text of their own. */
  const NamedErrors: set<int> := {SocketError, FailedToStart, Crashed, Timedout, WriteError}

  const UnknownErrorText: string := "Unkown error."

  /** `getProcessErrorAsString`, with `self.tr` taken as the identity: the
      untranslated English texts. */
  function ErrorText(error: int): (text: string)
    ensures error !in NamedErrors <==> text == UnknownErrorText
  {
    if error == SocketError then "Ingen failed to create UNIX socket."
    else if error == FailedToStart then "Process failed to start."
    else if error == Crashed then "Process crashed."
    else if error == Timedout then "Process timed out."
    else if error == WriteError then "Process write error."
    else UnknownErrorText
  }

  /** The text identifies the error, except that every code without a text
      of its own (a read error among them) reads "Unkown error.". */
  lemma ErrorTextIdentifies(a: int, b: int)
    requires ErrorText(a) == ErrorText(b)
    ensures a == b || (a !in NamedErrors && b !in NamedErrors)
  {
    if a in NamedErrors || b in NamedErrors {
      assert ErrorText(a)[8] == ErrorText(b)[8];
    }
  }

  /** The message logged and shown for an error, untranslated. */
  function CouldNotStart(error: int): string {
    "Could not start host backend.\n" + ErrorText(error)
  }

  /** What `slot_backendError` does after stopping the web server. */
  function ErrorEffects(error: int, stopping: bool, firstInit: bool, liveIso: bool): seq<Effect> {
    if error == Crashed && stopping then []
    else
      [LogError(error)]
      + (if liveIso then [Schedule(Timer(0, Slot.BackendStart))] else if firstInit then [] else [ShowError(error)])
  }

  /** The error policy, by its effects: a crash while stopping leaves no
      trace; any other error is logged; in live-ISO mode it arms an
      immediate restart; otherwise it is shown in a dialog unless it is the
      first start. Nothing else happens, and only this error is reported. */
  lemma ErrorPolicy(error: int, stopping: bool, firstInit: bool, liveIso: bool)
    ensures var e := ErrorEffects(error, stopping, firstInit, liveIso);
      && (e == [] <==> error == Crashed && stopping)
      && (LogError(error) in e <==> !(error == Crashed && stopping))
      && (Schedule(Timer(0, Slot.BackendStart)) in e <==> !(error == Crashed && stopping) && liveIso)
      && (ShowError(error) in e <==> !(error == Crashed && stopping) && !liveIso && !firstInit)
      && (forall k :: 0 <= k < |e| ==>
            e[k] == LogError(error) || e[k] == ShowError(error) || e[k] == Schedule(Timer(0, Slot.BackendStart)))
  {
  }

  /** Reporting an error never starts the web server or reconnects. */
  lemma ErrorEffectsQuiet(error: int, stopping: bool, firstInit: bool, liveIso: bool)
    ensures StartWebServer !in ErrorEffects(error, stopping, firstInit, liveIso)
    ensures Reconnect !in ErrorEffects(error, stopping, firstInit, liveIso)
  {
  }

  // ---------------------------------------------------------------------------
  // Stopping

  /** What `stopAndWaitForWebServer` does to the outside world. */
  function ServerStopEffects(running: bool, joined: bool): seq<Effect> {
    if !running then []
    else [StopWebServer] + (if joined then [] else [Warning(ServerKillWarning), TerminateWebServer])
  }

  /** What `stopAndWaitForBackend` does to the process. */
  function BackendStopEffects(process: ProcessState, wait: WaitOutcome): seq<Effect> {
    if process == NotRunning then []
    else [TerminateBackend] + (if wait.StillRunning? then [Warning(BackendKillWarning), KillBackend] else [])
  }

  /** The effects of terminating a live engine and then waiting for it
      add up to those of `stopAndWaitForBackend`. */
  lemma StopSplit(start: seq<Effect>, process: ProcessState, wait: WaitOutcome, running: bool, joined: bool)
    requires process != NotRunning
    ensures start + [TerminateBackend]
        + (if wait.Exited? then ServerStopEffects(running, joined) else [Warning(BackendKillWarning), KillBackend])
      == start + BackendStopEffects(process, wait) + (if wait.Exited? then ServerStopEffects(running, joined) else [])
  {
  }

  /** The calls `stopWait` makes into the web server. */
  function ShutdownEvents(running: bool): seq<WebServer.Event> {
    if running then [WebServer.Shutdown] else []
  }

  /** Stopping is minimal and ordered: whatever the wait outcomes, the web
      server is asked to stop before the engine is terminated, the web
      server is terminated only when it did not stop within its wait, and
      the engine is killed only when it did not exit within its wait. */
  lemma StopOrder(running: bool, joined: bool, process: ProcessState, wait: WaitOutcome)
    ensures var e := ServerStopEffects(running, joined) + BackendStopEffects(process, wait);
      && (forall i, j :: 0 <= i < |e| && 0 <= j < |e| && e[i] == StopWebServer && e[j] == TerminateBackend ==> i < j)
      && (StopWebServer in e <==> running)
      && (TerminateWebServer in e <==> running && !joined)
      && (TerminateBackend in e <==> process != NotRunning)
      && (KillBackend in e <==> process != NotRunning && wait.StillRunning?)
  {
    var s := ServerStopEffects(running, joined);
    var b := BackendStopEffects(process, wait);
    var e := s + b;
    forall i, j | 0 <= i < |e| && 0 <= j < |e| && e[i] == StopWebServer && e[j] == TerminateBackend
      ensures i < j
    {
      assert TerminateBackend !in s;
      assert StopWebServer !in b;
    }
  }

  /** The effects of stopping the engine and then reporting an error add
      up the same way whichever of the two stopped the web server. */
  lemma StopThenReport(start: seq<Effect>, backendStop: seq<Effect>, serverStop: seq<Effect>,
                       laterServerStop: seq<Effect>, report: seq<Effect>,
                       mid: seq<Effect>, end: seq<Effect>, exited: bool)
    requires exited ==> mid == start + backendStop + serverStop && laterServerStop == []
    requires !exited ==> mid == start + backendStop && laterServerStop == serverStop
    requires end == mid + laterServerStop + report
    ensures end == start + backendStop + serverStop + report
  {
    if exited {
      assert mid + laterServerStop == mid;
    }
  }

  // ---------------------------------------------------------------------------
  // Readiness

  /** `SESSION.reconnect()` accompanies every start of the web server except
      the one that follows the first readiness of the engine. */
  predicate ReadinessCounted(effects: seq<Effect>, firstInit2: bool) {
    && Count(effects, StartWebServer) == Count(effects, Reconnect) + (if firstInit2 then 0 else 1)
    && (firstInit2 ==> Count(effects, StartWebServer) == 0)
  }

  /** Effects other than readiness keep the count. */
  lemma QuietAppend(effects: seq<Effect>, more: seq<Effect>, firstInit2: bool)
    requires ReadinessCounted(effects, firstInit2)
    requires StartWebServer !in more && Reconnect !in more
    ensures ReadinessCounted(effects + more, firstInit2)
  {
    CountAppend(effects, more, StartWebServer);
    CountAppend(effects, more, Reconnect);
    CountZero(more, StartWebServer);
    CountZero(more, Reconnect);
  }

  /** The effects of `slot_ingenStarted` on a running engine. */
  function ReadyEffects(firstInit2: bool): seq<Effect> {
    (if firstInit2 then [] else [Reconnect]) + [StartWebServer]
  }

  /** A readiness keeps the count and ends the first-readiness phase. */
  lemma ReadyAppend(effects: seq<Effect>, firstInit2: bool)
    requires ReadinessCounted(effects, firstInit2)
    ensures ReadinessCounted(effects + ReadyEffects(firstInit2), false)
  {
    var more := ReadyEffects(firstInit2);
    CountAppend(effects, more, StartWebServer);
    CountAppend(effects, more, Reconnect);
    if firstInit2 {
      assert more == [StartWebServer] && more[1..] == [];
    } else {
      assert more == [Reconnect, StartWebServer] && more[1..] == [StartWebServer] && more[1..][1..] == [];
      assert Count(more[1..], StartWebServer) == 1 && Count(more[1..], Reconnect) == 0;
      assert Count(more, StartWebServer) == 1 && Count(more, Reconnect) == 1;
    }
  }

  /** The timers one read of the engine's output arms. */
  function Schedules(timers: seq<Timer>): (r: seq<Effect>)
    ensures |r| == |timers|
    ensures forall k :: 0 <= k < |r| ==> r[k] == Schedule(timers[k])
  {
    if timers == [] then [] else [Schedule(timers[0])] + Schedules(timers[1..])
  }

  lemma SchedulesQuiet(timers: seq<Timer>)
    ensures StartWebServer !in Schedules(timers) && Reconnect !in Schedules(timers)
  {
    var r := Schedules(timers);
    forall k | 0 <= k < |r| ensures r[k] != StartWebServer && r[k] != Reconnect {
      assert r[k] == Schedule(timers[k]);
    }
  }

  /** Arming timers keeps the readiness count. */
  lemma SchedulesKeepCount(effects: seq<Effect>, timers: seq<Timer>, firstInit2: bool)
    requires ReadinessCounted(effects, firstInit2)
    ensures ReadinessCounted(effects + Schedules(timers), firstInit2)
  {
    SchedulesQuiet(timers);
    QuietAppend(effects, Schedules(timers), firstInit2);
  }

  // ---------------------------------------------------------------------------
  // Window title and presets menu

  const AppTitle: string := "MOD Application"
  const TitleSeparator: string := " - "

  /** `setProperWindowTitle`. */
  function WindowTitle(pedalboard: string): string {
    AppTitle + (if pedalboard != "" then TitleSeparator + pedalboard else "")
  }

  /** The pedalboard a window title names. */
  function TitlePedalboard(title: string): string {
    if |title| > |AppTitle| + |TitleSeparator| then title[|AppTitle| + |TitleSeparator|..] else ""
  }

  /** The title always starts with the application name and names the
      pedalboard exactly. */
  lemma TitleRoundTrip(pedalboard: string)
    ensures StartsWith(WindowTitle(pedalboard), AppTitle)
    ensures TitlePedalboard(WindowTitle(pedalboard)) == pedalboard
    ensures WindowTitle(pedalboard) == AppTitle <==> pedalboard == ""
  {
    var t := WindowTitle(pedalboard);
    assert t[..|AppTitle|] == AppTitle;
    if pedalboard != "" {
      assert t[|AppTitle| + |TitleSeparator|..] == pedalboard;
    }
  }

  /** `QFileInfo(name).absoluteFilePath()`, with the process's current
      directory `cwd` passed in: an empty name stays empty, an absolute name
      is kept, and a relative one is placed under `cwd`. */
  function AbsoluteFilePath(cwd: string, name: string): string {
    if name == "" || StartsWith(name, "/") then name
    else if EndsWith(cwd, "/") then cwd + name
    else cwd + "/" + name
  }

  /** The absolute path still ends with the name and is empty only for the
      empty name; a relative name is placed under `cwd`; when `cwd` is
      absolute, so is the result, and resolving it again changes nothing. */
  lemma AbsoluteFilePathSpec(cwd: string, name: string)
    ensures EndsWith(AbsoluteFilePath(cwd, name), name)
    ensures AbsoluteFilePath(cwd, name) == "" <==> name == ""
    ensures StartsWith(name, "/") ==> AbsoluteFilePath(cwd, name) == name
    ensures name != "" && !StartsWith(name, "/") ==> StartsWith(AbsoluteFilePath(cwd, name), cwd)
    ensures StartsWith(cwd, "/") && name != "" ==> StartsWith(AbsoluteFilePath(cwd, name), "/")
    ensures StartsWith(cwd, "/") ==> AbsoluteFilePath(cwd, AbsoluteFilePath(cwd, name)) == AbsoluteFilePath(cwd, name)
  {
    var r := AbsoluteFilePath(cwd, name);
    if name != "" && !StartsWith(name, "/") {
      var sep := if EndsWith(cwd, "/") then "" else "/";
      assert r == cwd + sep + name;
      assert r[..|cwd|] == cwd;
      assert r[|r| - |name|..] == name;
      if StartsWith(cwd, "/") {
        assert r[..1] == cwd[..1];
      } else if cwd == "" {
        assert r[..1] == "/";
      }
    }
  }

  /** `SavePedalboardWindow.slot_nameChanged`: the save button is enabled
      for a name that is not empty and that no existing pedalboard has
      (`fExistingNames`). */
  predicate SaveNameAccepted(name: string, existingNames: seq<string>) {
    name != "" && name !in existingNames
  }

  /** An accepted name differs from every existing name, and once it is
      among the existing names it is refused. */
  lemma SaveNameFresh(name: string, existingNames: seq<string>)
    ensures SaveNameAccepted(name, existingNames)
      <==> name != "" && forall k :: 0 <= k < |existingNames| ==> existingNames[k] != name
    ensures !SaveNameAccepted(name, existingNames + [name])
  {
    assert (existingNames + [name])[|existingNames|] == name;
  }

  /** A preset of a pedalboard. */
  datatype Preset = Preset(caption: string, uri: string)  // a preset's label and address

  /** An entry of the pedalboard list. */
  datatype PedalboardInfo = PedalboardInfo(uri: string, presets: seq<Preset>)

  /** The presets of the pedalboards whose address contains `current`, in
      list order, or none when no pedalboard is current. */
  function PresetsMenu(current: string, pedalboards: seq<PedalboardInfo>): seq<Preset> {
    if current == "" then [] else MatchingPresets(current, pedalboards)
  }

  function MatchingPresets(current: string, pedalboards: seq<PedalboardInfo>): seq<Preset> {
    if pedalboards == [] then []
    else
      var last := pedalboards[|pedalboards| - 1];
      MatchingPresets(current, pedalboards[..|pedalboards| - 1])
        + (if Contains(last.uri, current) then last.presets else [])
  }

  lemma {:induction false} MatchingPresetsSound(current: string, pedalboards: seq<PedalboardInfo>, p: Preset)
    requires p in MatchingPresets(current, pedalboards)
    ensures exists k :: 0 <= k < |pedalboards| && Contains(pedalboards[k].uri, current) && p in pedalboards[k].presets
  {
    var n := |pedalboards| - 1;
    var init := pedalboards[..n];
    if p in MatchingPresets(current, init) {
      MatchingPresetsSound(current, init, p);
      var k :| 0 <= k < |init| && Contains(init[k].uri, current) && p in init[k].presets;
      assert pedalboards[k] == init[k];
    } else {
      assert Contains(pedalboards[n].uri, current) && p in pedalboards[n].presets;
    }
  }

  lemma {:induction false} MatchingPresetsComplete(current: string, pedalboards: seq<PedalboardInfo>, p: Preset, k: int)
    requires 0 <= k < |pedalboards| && Contains(pedalboards[k].uri, current) && p in pedalboards[k].presets
    ensures p in MatchingPresets(current, pedalboards)
  {
    var n := |pedalboards| - 1;
    var init := pedalboards[..n];
    if k < n {
      assert init[k] == pedalboards[k];
      MatchingPresetsComplete(current, init, p, k);
    }
  }

  /** A preset is in the menu exactly when a pedalboard is current and the
      preset belongs to a pedalboard whose address contains the current one. */
  lemma PresetsMenuSpec(current: string, pedalboards: seq<PedalboardInfo>, p: Preset)
    ensures p in PresetsMenu(current, pedalboards)
      <==> current != "" && exists k :: 0 <= k < |pedalboards| && Contains(pedalboards[k].uri, current) && p in pedalboards[k].presets
  {
    if current != "" {
      if p in MatchingPresets(current, pedalboards) {
        MatchingPresetsSound(current, pedalboards, p);
      }
      if exists k :: 0 <= k < |pedalboards| && Contains(pedalboards[k].uri, current) && p in pedalboards[k].presets {
        var k :| 0 <= k < |pedalboards| && Contains(pedalboards[k].uri, current) && p in pedalboards[k].presets;
        MatchingPresetsComplete(current, pedalboards, p, k);
      }
    }
  }

  // ---------------------------------------------------------------------------
  // The window

  /** The state of the window that the lifecycle reads and writes. */
  datatype HostState = HostState(
    process: ProcessState,
    firstInit: bool,     // fFirstBackendInit
    firstInit2: bool,    // fFirstBackendInit2
    stopping: bool,      // fStoppingBackend
    pedalboard: string,  // fCurrentPedalboard
    presetMenu: seq<Preset>)

  /** The state after `stopAndWaitForBackend`: nothing happens to a stopped
      engine; an engine that exits within the wait has delivered `finished`
      (and a crash error before it); one that does not stays `stopping`. */
  function AfterStop(s: HostState, wait: WaitOutcome): HostState {
    if s.process == NotRunning then s
    else if wait.Exited? then s.(process := NotRunning, firstInit := false, stopping := false)
    else s.(stopping := true)
  }

  class HostWindow {
    const port: int                         // config["port"]
    const liveIso: bool                     // USING_LIVE_ISO
    const hostPathSetting: string           // fSavedSettings[MOD_KEY_HOST_PATH]
    const defaultHostPath: string           // MOD_DEFAULT_HOST_PATH
    const pedalboards: seq<PedalboardInfo>  // fPedalboards
    const webServer: WebServer.WebServerThread

    var process: ProcessState
    var firstBackendInit: bool
    var firstBackendInit2: bool
    var stoppingBackend: bool
    var currentPedalboard: string
    var presetMenu: seq<Preset>
    var effects: seq<Effect>

    ghost function State(): HostState
      reads this
    {
      HostState(process, firstBackendInit, firstBackendInit2, stoppingBackend, currentPedalboard, presetMenu)
    }

    ghost predicate Valid()
      reads this, webServer
    {
      webServer.Valid() && ReadinessCounted(effects, firstBackendInit2)
    }

    /** The web server thread has been stopped by `stopAndWaitForWebServer`. */
    twostate predicate ServerStopped()
      reads webServer
    {
      && !webServer.running
      && webServer.prepareWasCalled == old(webServer.prepareWasCalled)
      && webServer.events == old(webServer.events) + ShutdownEvents(old(webServer.running))
    }

    /** The constructor as written: both first-init flags are set, and then
        the initial stopped state is entered by calling `slot_backendFinished`,
        which clears `fFirstBackendInit` again. Unless auto-start is
        disabled, a start of the engine is armed. */
    constructor (port: int, liveIso: bool, hostPathSetting: string, defaultHostPath: string,
                 pedalboards: seq<PedalboardInfo>, autostart: bool)
      ensures Valid() && fresh(webServer)
      ensures this.port == port && this.liveIso == liveIso && this.pedalboards == pedalboards
      ensures this.hostPathSetting == hostPathSetting && this.defaultHostPath == defaultHostPath
      ensures State() == HostState(NotRunning, false, true, false, "", [])
      ensures effects == (if autostart then [Schedule(Timer(0, Slot.BackendStart))] else [])
      ensures !webServer.running && !webServer.prepareWasCalled && webServer.events == []
    {
      this.port := port;
      this.liveIso := liveIso;
      this.hostPathSetting := hostPathSetting;
      this.defaultHostPath := defaultHostPath;
      this.pedalboards := pedalboards;
      currentPedalboard := "";
      firstBackendInit := true;
      firstBackendInit2 := true;
      presetMenu := [];
      process := NotRunning;
      stoppingBackend := false;
      webServer := new WebServer.WebServerThread();
      effects := [];
      new;
      BackendFinished(-1, -1, true);
      UpdatePresetsMenu();
      if autostart {
        QuietAppend(effects, [Schedule(Timer(0, Slot.BackendStart))], firstBackendInit2);
        effects := effects + [Schedule(Timer(0, Slot.BackendStart))];
      }
    }

    /** The constructor as evidently intended: the initial stopped state
        keeps `fFirstBackendInit`, so a failure of the automatic first start
        is logged but not shown. */
    constructor WithSilentFirstStart(port: int, liveIso: bool, hostPathSetting: string, defaultHostPath: string,
                                     pedalboards: seq<PedalboardInfo>, autostart: bool)
      ensures Valid() && fresh(webServer)
      ensures this.port == port && this.liveIso == liveIso && this.pedalboards == pedalboards
      ensures this.hostPathSetting == hostPathSetting && this.defaultHostPath == defaultHostPath
      ensures State() == HostState(NotRunning, true, true, false, "", [])
      ensures effects == (if autostart then [Schedule(Timer(0, Slot.BackendStart))] else [])
      ensures !webServer.running && !webServer.prepareWasCalled && webServer.events == []
    {
      this.port := port;
      this.liveIso := liveIso;
      this.hostPathSetting := hostPathSetting;
      this.defaultHostPath := defaultHostPath;
      this.pedalboards := pedalboards;
      currentPedalboard := "";
      firstBackendInit := true;
      firstBackendInit2 := true;
      presetMenu := [];
      process := NotRunning;
      stoppingBackend := false;
      webServer := new WebServer.WebServerThread();
      effects := [];
      new;
      StopAndWaitForWebServer(true);
      UpdatePresetsMenu();
      if autostart {
        QuietAppend(effects, [Schedule(Timer(0, Slot.BackendStart))], firstBackendInit2);
        effects := effects + [Schedule(Timer(0, Slot.BackendStart))];
      }
    }

    /** `slot_backendStart`: ignored unless the engine is stopped; otherwise
        the engine is spawned with the current pedalboard. */
    method BackendStart()
      requires Valid()
      modifies this
      ensures Valid()
      ensures old(process) != NotRunning ==> State() == old(State()) && effects == old(effects)
      ensures old(process) == NotRunning ==>
        && State() == old(State()).(process := Starting)
        && effects == old(effects) + [Spawn(HostPath(hostPathSetting, defaultHostPath), BackendArgs(port, currentPedalboard))]
    {
      if process != NotRunning {
        return;
      }
      var hostPath := hostPathSetting;
      if EndsWith(hostPath, HostSuffix) {
        hostPath := defaultHostPath;
      }
      var hostArgs := ["-e", "-n", ClientName(port), "-S", SocketPath(port)];
      if currentPedalboard != "" {
        hostArgs := hostArgs + [currentPedalboard];
      }
      assert hostPath == HostPath(hostPathSetting, defaultHostPath);
      assert hostArgs == BackendArgs(port, currentPedalboard);
      QuietAppend(effects, [Spawn(hostPath, hostArgs)], firstBackendInit2);
      effects := effects + [Spawn(hostPath, hostArgs)];
      process := Starting;
    }

    /** `stopAndWaitForWebServer`: nothing happens unless the thread runs;
        then it is asked to stop, and terminated when it does not finish
        within its wait (`joined` false). */
    method StopAndWaitForWebServer(joined: bool)
      requires Valid()
      modifies this, webServer
      ensures Valid()
      ensures ServerStopped()
      ensures State() == old(State())
      ensures effects == old(effects) + ServerStopEffects(old(webServer.running), joined)
    {
      if !webServer.running {
        return;
      }
      QuietAppend(effects, [StopWebServer], firstBackendInit2);
      effects := effects + [StopWebServer];
      var ok := webServer.StopWait(joined);
      if !ok {
        QuietAppend(effects, [Warning(ServerKillWarning), TerminateWebServer], firstBackendInit2);
        effects := effects + [Warning(ServerKillWarning), TerminateWebServer];
        webServer.Terminate();
      }
    }

    /** `slot_backendFinished`: clears both `fFirstBackendInit` and
        `fStoppingBackend` and stops the web server. The exit code and
        status are not used. */
    method BackendFinished(exitCode: int, exitStatus: int, joined: bool)
      requires Valid()
      modifies this, webServer
      ensures Valid()
      ensures ServerStopped()
      ensures State() == old(State()).(firstInit := false, stopping := false)
      ensures effects == old(effects) + ServerStopEffects(old(webServer.running), joined)
    {
      firstBackendInit := false;
      stoppingBackend := false;
      StopAndWaitForWebServer(joined);
    }

    /** `slot_backendError`: reads and clears `fFirstBackendInit`, always
        stops the web server, and then reacts as `ErrorPolicy` states. */
    method BackendError(error: int, joined: bool)
      requires Valid()
      modifies this, webServer
      ensures Valid()
      ensures ServerStopped()
      ensures State() == old(State()).(firstInit := false)
      ensures effects == old(effects) + ServerStopEffects(old(webServer.running), joined)
        + ErrorEffects(error, old(stoppingBackend), old(firstBackendInit), liveIso)
    {
      var firstInit := firstBackendInit;
      firstBackendInit := false;
      StopAndWaitForWebServer(joined);
      // the rest of the slot, in order
      var report: seq<Effect> := [];
      if !(error == Crashed && stoppingBackend) {
        report := [LogError(error)];
        if liveIso {
          report := report + [Schedule(Timer(0, Slot.BackendStart))];
        } else if !firstInit {
          report := report + [ShowError(error)];
        }
      }
      assert report == ErrorEffects(error, stoppingBackend, firstInit, liveIso);
      ErrorEffectsQuiet(error, stoppingBackend, firstInit, liveIso);
      QuietAppend(effects, report, firstBackendInit2);
      effects := effects + report;
    }

    /** Qt's delivery of an exit: `error(Crashed)` first when the engine
        crashed, then `finished`. */
    method Died(exitCode: int, crashed: bool, joined: bool)
      requires Valid()
      modifies this, webServer
      ensures Valid()
      ensures ServerStopped()
      ensures State() == old(State()).(firstInit := false, stopping := false)
      ensures effects == old(effects) + ServerStopEffects(old(webServer.running), joined)
        + (if crashed then ErrorEffects(Crashed, old(stoppingBackend), old(firstBackendInit), liveIso) else [])
    {
      if crashed {
        BackendError(Crashed, joined);
      }
      BackendFinished(exitCode, if crashed then CrashExit else NormalExit, joined);
    }

    /** `stopAndWaitForBackend`: nothing happens to a stopped engine;
        otherwise `fStoppingBackend` is set and the engine is terminated.
        If it exits within the wait, its exit is delivered during the wait
        (a crash while stopping is ignored); if not, it is killed and its
        exit arrives later, as `ProcessExited`. */
    method StopAndWaitForBackend(wait: WaitOutcome, joined: bool)
      requires Valid()
      modifies this, webServer
      ensures Valid()
      ensures State() == AfterStop(old(State()), wait)
      ensures old(process) == NotRunning || wait.StillRunning? ==> unchanged(webServer)
      ensures old(process) != NotRunning && wait.Exited? ==> ServerStopped()
      ensures effects == old(effects) + BackendStopEffects(old(process), wait)
        + (if old(process) != NotRunning && wait.Exited? then ServerStopEffects(old(webServer.running), joined) else [])
    {
      if process != NotRunning {
        StopRunningBackend(wait, joined);
      }
    }

    /** `stopAndWaitForBackend` on an engine that has not stopped. */
    method StopRunningBackend(wait: WaitOutcome, joined: bool)
      requires Valid() && process != NotRunning
      modifies this, webServer
      ensures Valid()
      ensures State() == AfterStop(old(State()), wait)
      ensures wait.StillRunning? ==> unchanged(webServer)
      ensures wait.Exited? ==> ServerStopped()
      ensures effects == old(effects) + BackendStopEffects(old(process), wait)
        + (if wait.Exited? then ServerStopEffects(old(webServer.running), joined) else [])
    {
      StopSplit(effects, process, wait, webServer.running, joined);
      stoppingBackend := true;
      QuietAppend(effects, [TerminateBackend], firstBackendInit2);
      effects := effects + [TerminateBackend];
      WaitForBackend(wait, joined);
    }

    /** The `waitForFinished(2000)` of `stopAndWaitForBackend` on a
        terminated engine: an exit within the wait is delivered at once, and
        its crash error is ignored since the engine is stopping; otherwise the
        engine is killed. */
    method WaitForBackend(wait: WaitOutcome, joined: bool)
      requires Valid() && process != NotRunning && stoppingBackend
      modifies this, webServer
      ensures Valid()
      ensures State() == AfterStop(old(State()), wait)
      ensures wait.StillRunning? ==> unchanged(webServer)
      ensures wait.Exited? ==> ServerStopped()
      ensures effects == old(effects)
        + (if wait.Exited? then ServerStopEffects(old(webServer.running), joined)
           else [Warning(BackendKillWarning), KillBackend])
    {
      match wait {
        case Exited(exitCode, crashed) =>
          ProcessExited(exitCode, crashed, joined);
          assert ErrorEffects(Crashed, true, old(firstBackendInit), liveIso) == [];
        case StillRunning =>
          QuietAppend(effects, [Warning(BackendKillWarning), KillBackend], firstBackendInit2);
          effects := effects + [Warning(BackendKillWarning), KillBackend];
      }
    }

    /** `slot_backendStop`: the web server is stopped, then the engine. */
    method BackendStop(wait: WaitOutcome, serverJoined: bool)
      requires Valid()
      modifies this, webServer
      ensures Valid()
      ensures ServerStopped()
      ensures State() == AfterStop(old(State()), wait)
      ensures effects == old(effects) + ServerStopEffects(old(webServer.running), serverJoined)
        + BackendStopEffects(old(process), wait)
    {
      StopAndWaitForWebServer(serverJoined);
      StopAndWaitForBackend(wait, serverJoined);
    }

    /** `slot_backendRestart`: a stop followed by a start; the start is
        ignored when the engine had to be killed, since it has not
        reported its exit yet. */
    method BackendRestart(wait: WaitOutcome, serverJoined: bool)
      requires Valid()
      modifies this, webServer
      ensures Valid()
      ensures ServerStopped()
      ensures var stopped := AfterStop(old(State()), wait);
        State() == if stopped.process == NotRunning then stopped.(process := Starting) else stopped
      ensures effects == old(effects) + ServerStopEffects(old(webServer.running), serverJoined)
        + BackendStopEffects(old(process), wait)
        + (if old(process) == NotRunning || wait.Exited?
           then [Spawn(HostPath(hostPathSetting, defaultHostPath), BackendArgs(port, currentPedalboard))]
           else [])
    {
      BackendStop(wait, serverJoined);
      BackendStart();
    }

    /** `slot_ingenStarted`: nothing happens once the engine has stopped;
        otherwise the session reconnects (except on the first readiness)
        and the web server thread is started. */
    method IngenStarted()
      requires Valid()
      modifies this, webServer
      ensures Valid()
      ensures old(process) == NotRunning ==> State() == old(State()) && effects == old(effects) && unchanged(webServer)
      ensures old(process) != NotRunning ==>
        && State() == old(State()).(firstInit2 := false)
        && effects == old(effects) + ReadyEffects(old(firstBackendInit2))
        && webServer.running
        && webServer.events == old(webServer.events)
             + (if old(webServer.running) then [] else WebServer.RunEvents(old(webServer.prepareWasCalled)))
    {
      if process == NotRunning {
        return;
      }
      ReadyAppend(effects, firstBackendInit2);
      ghost var before := effects;
      if !firstBackendInit2 {
        effects := effects + [Reconnect];
      }
      firstBackendInit2 := false;
      effects := effects + [StartWebServer];
      assert effects == before + ReadyEffects(old(firstBackendInit2));
      webServer.Start();
    }

    /** `slot_ingenStartError`: the engine is stopped, and the error is
        then reported with code -2, which is never ignored. */
    method IngenStartError(wait: WaitOutcome, joined: bool)
      requires Valid()
      modifies this, webServer
      ensures Valid()
      ensures ServerStopped()
      ensures State() == AfterStop(old(State()), wait).(firstInit := false)
      ensures effects == old(effects) + BackendStopEffects(old(process), wait)
        + ServerStopEffects(old(webServer.running), joined)
        + ErrorEffects(SocketError, AfterStop(old(State()), wait).stopping, AfterStop(old(State()), wait).firstInit, liveIso)
    {
      ghost var stopped := AfterStop(State(), wait);
      StopAndWaitForBackend(wait, joined);
      ghost var mid := effects;
      ghost var serverStop := ServerStopEffects(webServer.running, joined);
      BackendError(SocketError, joined);
      ghost var exited := old(process) != NotRunning && wait.Exited?;
      assert exited ==> serverStop == [];
      StopThenReport(old(effects), BackendStopEffects(old(process), wait),
        ServerStopEffects(old(webServer.running), joined), serverStop,
        ErrorEffects(SocketError, stopped.stopping, stopped.firstInit, liveIso), mid, effects, exited);
    }

    /** `slot_backendRead`: the timers the engine's output arms. */
    method BackendRead(decode: seq<byte> -> string, chunk: seq<byte>)
      requires Valid()
      modifies this
      ensures Valid()
      ensures State() == old(State())
      ensures effects == old(effects) + Schedules(ReadChunk(decode, chunk))
    {
      var timers := ReadChunk(decode, chunk);
      SchedulesKeepCount(effects, timers, firstBackendInit2);
      effects := effects + Schedules(timers);
    }

    // -------------------------------------------------------------------------
    // Signals of the process

    /** The process emitted `started`: only the user interface reacts. */
    method ProcessStarted()
      requires Valid() && process == Starting
      modifies this
      ensures Valid()
      ensures State() == old(State()).(process := Running)
      ensures effects == old(effects)
    {
      process := Running;
    }

    /** The program could not be run: Qt emits `error(FailedToStart)` only. */
    method ProcessFailedToStart(joined: bool)
      requires Valid() && process == Starting
      modifies this, webServer
      ensures Valid()
      ensures ServerStopped()
      ensures State() == old(State()).(process := NotRunning, firstInit := false)
      ensures effects == old(effects) + ServerStopEffects(old(webServer.running), joined)
        + ErrorEffects(FailedToStart, old(stoppingBackend), old(firstBackendInit), liveIso)
    {
      process := NotRunning;
      BackendError(FailedToStart, joined);
    }

    /** The engine exited on its own, or after a kill. */
    method ProcessExited(exitCode: int, crashed: bool, joined: bool)
      requires Valid() && process != NotRunning
      modifies this, webServer
      ensures Valid()
      ensures ServerStopped()
      ensures State() == old(State()).(process := NotRunning, firstInit := false, stopping := false)
      ensures effects == old(effects) + ServerStopEffects(old(webServer.running), joined)
        + (if crashed then ErrorEffects(Crashed, old(stoppingBackend), old(firstBackendInit), liveIso) else [])
    {
      process := NotRunning;
      Died(exitCode, crashed, joined);
    }

    // -------------------------------------------------------------------------
    // Pedalboard selection

    /** `updatePresetsMenu`: the menu lists the presets of every pedalboard
        whose address contains the current pedalboard. */
    method UpdatePresetsMenu()
      modifies this
      ensures State() == old(State()).(presetMenu := PresetsMenu(currentPedalboard, pedalboards))
      ensures effects == old(effects)
    {
      var menu: seq<Preset> := [];
      if currentPedalboard != "" {
        var i := 0;
        while i < |pedalboards|
          invariant 0 <= i <= |pedalboards|
          invariant menu == MatchingPresets(currentPedalboard, pedalboards[..i])
        {
          var pedalboard := pedalboards[i];
          if Contains(pedalboard.uri, currentPedalboard) {
            var j := 0;
            while j < |pedalboard.presets|
              invariant 0 <= j <= |pedalboard.presets|
              invariant menu == MatchingPresets(currentPedalboard, pedalboards[..i]) + pedalboard.presets[..j]
            {
              menu := menu + [pedalboard.presets[j]];
              j := j + 1;
            }
            assert pedalboard.presets[..j] == pedalboard.presets;
          }
          assert pedalboards[..i + 1][..i] == pedalboards[..i];
          i := i + 1;
        }
        assert pedalboards[..i] == pedalboards;
      }
      presetMenu := menu;
    }

    /** `slot_pedalboardNew` (with `""`) and the state change of
        `slot_pedalboardOpen` (lines 583-585): select a pedalboard as given, rebuild the
        presets menu, and compute the title. */
    method SelectPedalboard(pedalboard: string) returns (title: string)
      modifies this
      ensures State() == old(State()).(pedalboard := pedalboard, presetMenu := PresetsMenu(pedalboard, pedalboards))
      ensures effects == old(effects)
      ensures title == WindowTitle(pedalboard)
      ensures TitlePedalboard(title) == pedalboard
    {
      currentPedalboard := pedalboard;
      UpdatePresetsMenu();
      title := WindowTitle(pedalboard);
      TitleRoundTrip(pedalboard);
    }

    /** `openPedalboardLater`: select the pedalboard file by its absolute
        path, with the current directory `cwd` passed in. */
    method OpenPedalboardLater(cwd: string, filename: string) returns (title: string)
      modifies this
      ensures var pedalboard := AbsoluteFilePath(cwd, filename);
        && State() == old(State()).(pedalboard := pedalboard, presetMenu := PresetsMenu(pedalboard, pedalboards))
        && title == WindowTitle(pedalboard)
      ensures effects == old(effects)
    {
      title := SelectPedalboard(AbsoluteFilePath(cwd, filename));
    }
  }

  // ---------------------------------------------------------------------------
  // The first automatic start

  /** The error dialog appears among `effects`. */
  predicate ShowsDialog(effects: seq<Effect>) {
    exists k :: 0 <= k < |effects| && effects[k].ShowError?
  }

  /** The first start of a window: the engine is spawned and then fails to
      start, with nothing else running. */
  method FailFirstStart(w: HostWindow, joined: bool) returns (report: seq<Effect>)
    requires w.Valid() && w.process == NotRunning && !w.webServer.running && !w.stoppingBackend && !w.liveIso
    modifies w, w.webServer
    ensures report == ErrorEffects(FailedToStart, false, old(w.firstBackendInit), false)
    ensures |w.effects| == |old(w.effects)| + 1 + |report| && w.effects[..|old(w.effects)|] == old(w.effects)
    ensures w.effects[|old(w.effects)|].Spawn? && w.effects[|old(w.effects)| + 1..] == report
  {
    var firstInit := w.firstBackendInit;
    w.BackendStart();
    ghost var started := w.effects;
    assert w.process == Starting && !w.webServer.running && !w.stoppingBackend;
    assert started == old(w.effects) + [started[|old(w.effects)|]] && started[|old(w.effects)|].Spawn?;
    w.ProcessFailedToStart(joined);
    assert ServerStopEffects(false, joined) == [];
    report := ErrorEffects(FailedToStart, false, firstInit, false);
    assert w.effects == started + report;
  }

  /** As written, a window that auto-starts an engine that cannot be run
      shows the error dialog. */
  method FirstFailureShown(port: int, hostPath: string, defaultPath: string,
                           pedalboards: seq<PedalboardInfo>, joined: bool) returns (shown: bool)
    ensures shown
  {
    var w := new HostWindow(port, false, hostPath, defaultPath, pedalboards, true);
    var report := FailFirstStart(w, joined);
    assert report == [LogError(FailedToStart), ShowError(FailedToStart)];
    assert w.effects[|w.effects| - 1] == report[1];
    shown := ShowsDialog(w.effects);
  }

  /** With the intended constructor, the same failure is logged but not shown. */
  method FirstFailureSilent(port: int, hostPath: string, defaultPath: string,
                            pedalboards: seq<PedalboardInfo>, joined: bool) returns (logged: bool, shown: bool)
    ensures logged && !shown
  {
    var w := new HostWindow.WithSilentFirstStart(port, false, hostPath, defaultPath, pedalboards, true);
    ghost var armed := w.effects;
    var report := FailFirstStart(w, joined);
    assert report == [LogError(FailedToStart)];
    assert |w.effects| == 3 && w.effects[..1] == armed && w.effects[2..] == report;
    forall k | 0 <= k < |w.effects| ensures !w.effects[k].ShowError? {
      assert k == 0 ==> w.effects[k] == armed[0];
      assert k == 2 ==> w.effects[k] == report[0];
    }
    assert w.effects[2] == report[0];
    logged := LogError(FailedToStart) in w.effects;
    shown := ShowsDialog(w.effects);
  }
}
