/** The thread that runs the web server (`WebServerThread`). Its `run`
    prepares the web server only the first time it runs on this object,
    emits `running`, and then serves: `webserver.start()` blocks until
    `webserver.stop()` is called from the dispatcher. The `webserver`
    module itself is an opaque collaborator; the model records the calls
    made into it, and the `running` signal, in the order they happen. */
module WebServer {
  import opened PyText

  datatype Event =
    | Prepare      // webserver.prepare()
    | EmitRunning  // self.running.emit()
    | Serve        // webserver.start(), which blocks while serving
    | Shutdown     // webserver.stop()

  /** What one `run` does (lines 64-70), given whether `prepare` has run
      on this thread object before. */
  function RunEvents(prepared: bool): (r: seq<Event>)
    ensures Count(r, Prepare) == (if prepared then 0 else 1)
    ensures |r| >= 2 && r[|r| - 2..] == [EmitRunning, Serve]
    ensures forall k :: 0 <= k < |r| - 1 ==> r[k] != Serve
  {
    var r := (if prepared then [] else [Prepare]) + [EmitRunning, Serve];
    CountAppend(if prepared then [] else [Prepare], [EmitRunning, Serve], Prepare);
    r
  }

  /** Every call that starts serving comes right after `running` is
      emitted, stated on the last event of each prefix. */
  predicate RunningBeforeServe(t: seq<Event>)
    decreases |t|
  {
    t == [] || (RunningBeforeServe(t[..|t| - 1]) && (t[|t| - 1] == Serve ==> |t| >= 2 && t[|t| - 2] == EmitRunning))
  }

  /** The same property, stated on positions. */
  lemma {:induction false} RunningBeforeServeAt(t: seq<Event>, j: int)
    requires RunningBeforeServe(t) && 0 <= j < |t| && t[j] == Serve
    ensures j >= 1 && t[j - 1] == EmitRunning
    decreases |t|
  {
    if j < |t| - 1 {
      var init := t[..|t| - 1];
      assert init[j] == t[j];
      RunningBeforeServeAt(init, j);
      assert init[j - 1] == t[j - 1];
    }
  }

  /** The history of one thread object: `prepare` ran once if the flag is
      set and never otherwise, and `running` always precedes serving. */
  predicate History(t: seq<Event>, prepared: bool) {
    Count(t, Prepare) == (if prepared then 1 else 0) && RunningBeforeServe(t)
  }

  /** A run keeps the history sound and leaves the thread prepared. */
  lemma RunKeepsHistory(t: seq<Event>, prepared: bool)
    requires History(t, prepared)
    ensures History(t + RunEvents(prepared), true)
  {
    var r := RunEvents(prepared);
    CountAppend(t, r, Prepare);
    var p := if prepared then t else t + [Prepare];
    assert p != t ==> p[..|p| - 1] == t;
    var q := p + [EmitRunning];
    assert q[..|q| - 1] == p;
    assert t + r == q + [Serve];
    assert (q + [Serve])[..|q|] == q;
  }

  /** Stopping the server keeps the history sound. */
  lemma ShutdownKeepsHistory(t: seq<Event>, prepared: bool)
    requires History(t, prepared)
    ensures History(t + [Shutdown], prepared)
  {
    CountAppend(t, [Shutdown], Prepare);
    assert (t + [Shutdown])[..|t|] == t;
  }

  /** `n` start/stop cycles of one thread object that begins with `prepared`. */
  function Cycles(n: nat, prepared: bool): seq<Event> {
    if n == 0 then [] else RunEvents(prepared) + [Shutdown] + Cycles(n - 1, true)
  }

  /** However often one thread object is started and stopped, the web
      server is prepared once, in the first run, and never again. */
  lemma {:induction false} PrepareOnce(n: nat, prepared: bool)
    ensures Count(Cycles(n, prepared), Prepare) == (if n == 0 || prepared then 0 else 1)
  {
    if n > 0 {
      PrepareOnce(n - 1, true);
      CountAppend(RunEvents(prepared), [Shutdown], Prepare);
      CountAppend(RunEvents(prepared) + [Shutdown], Cycles(n - 1, true), Prepare);
    }
  }

  class WebServerThread {
    /** The `prepareWasCalled` attribute of this object. */
    var prepareWasCalled: bool
    /** `QThread.isRunning()`. */
    var running: bool
    /** Calls into the web server and signals, in order. */
    var events: seq<Event>

    ghost predicate Valid()
      reads this
    {
      History(events, prepareWasCalled)
    }

    constructor ()
      ensures Valid()
      ensures !prepareWasCalled && !running && events == []
    {
      prepareWasCalled := false;
      running := false;
      events := [];
    }

    /** `QThread.start()`: does nothing when the thread is already running;
        otherwise the thread starts and executes `run` up to the blocking
        `webserver.start()`. */
    method Start()
      requires Valid()
      modifies this
      ensures Valid()
      ensures running
      ensures old(running) ==> events == old(events) && prepareWasCalled == old(prepareWasCalled)
      ensures !old(running) ==> events == old(events) + RunEvents(old(prepareWasCalled)) && prepareWasCalled
    {
      if running {
        return;
      }
      running := true;
      RunKeepsHistory(events, prepareWasCalled);
      ghost var before := events;
      if !prepareWasCalled {
        prepareWasCalled := true;
        events := events + [Prepare];
      }
      events := events + [EmitRunning, Serve];
      assert events == before + RunEvents(old(prepareWasCalled));
    }

    /** `stopWait`, lines 72-74: `webserver.stop()`, then `wait(5000)`,
        which is true when the thread has finished within five seconds
        (`joined`) or was not running. */
    method StopWait(joined: bool) returns (ok: bool)
      requires Valid()
      modifies this
      ensures Valid()
      ensures events == old(events) + [Shutdown] && prepareWasCalled == old(prepareWasCalled)
      ensures ok == (!old(running) || joined)
      ensures running == !ok
    {
      ShutdownKeepsHistory(events, prepareWasCalled);
      events := events + [Shutdown];
      ok := !running || joined;
      running := !ok;
    }

    /** `QThread.terminate()`: the thread is cancelled. */
    method Terminate()
      modifies this
      ensures !running
      ensures events == old(events) && prepareWasCalled == old(prepareWasCalled)
    {
      running := false;
    }
  }
}
