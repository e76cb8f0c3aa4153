/**
 * The daemon's main loop, from the installation of the graceful signal
 * handlers to the end of the `while` loop: a state machine over the flags
 * `quit`, `force_quit` and `shutting_down` and the installed handler.
 *
 * What the environment does during one iteration is an input: the value
 * `ok_to_quit()` returns at the loop test, the alerts `pop_alerts` hands
 * over, and whether a SIGTERM/SIGINT arrives at each of three points — during
 * the sleep (or anywhere before the save check), between the save check and
 * the `force_quit` check, and between that check and the next loop test. The
 * daemon's observable actions are recorded as effects, in order.
 */
module MainLoop {
  import opened Alerts

  /** The handler installed for SIGTERM and SIGINT. */
  datatype Handler = Graceful | Forceful   // sighandler | sighandler_forcequit

  datatype Flags = Flags(quit: bool, forceQuit: bool, shuttingDown: bool, handler: Handler)

  datatype TickInput = TickInput(
    okToQuit: bool,           // resume.ok_to_quit() at the loop test before this iteration
    signalDuringSleep: bool,  // a signal arrives before the save check
    popped: seq<Alert>,       // the alert queue pop_alerts fills
    signalBeforeBreak: bool,  // a signal arrives after the save check, before the force_quit check
    signalBeforeTest: bool)   // a signal arrives after the force_quit check, before the next loop test

  datatype Effect =
    | TraceLine(alert: Alert)      // one " %s\n" line on the debug log
    | Dispatch(batch: seq<Alert>)  // alert_handler::dispatch_alerts
    | PostTorrentUpdates           // session::post_torrent_updates
    | SaveAll                      // save_resume::save_all

  datatype Outcome =
    | StillRunning  // the inputs ran out while the loop was still going
    | Quit          // the loop test failed: quit, and ok_to_quit() returned true
    | Forced        // the `if (force_quit) break;`

  /** Where the loop stands: how it ended, its flags, what it did and how many iterations ran. */
  datatype Run = Run(outcome: Outcome, flags: Flags, effects: seq<Effect>, ticks: nat)

  datatype TickResult = TickResult(flags: Flags, effects: seq<Effect>, broke: bool)

  /** The flags when the loop is reached: graceful handlers, and `quit` if a signal came already. */
  function Start(signalBeforeLoop: bool): Flags
  {
    Flags(signalBeforeLoop, false, false, Graceful)
  }

  /** A signal under the installed handler. */
  function Signal(f: Flags): Flags
  {
    match f.handler
    case Graceful => f.(quit := true)
    case Forceful => f.(forceQuit := true)
  }

  /** `!quit || !resume.ok_to_quit()` */
  predicate LoopTest(f: Flags, okToQuit: bool)
  {
    !f.quit || !okToQuit
  }

  function TraceLines(batch: seq<Alert>): (r: seq<Effect>)
    ensures |r| == |batch|
    ensures forall k :: 0 <= k < |batch| ==> r[k] == TraceLine(batch[k])
  {
    seq(|batch|, k requires 0 <= k < |batch| => TraceLine(batch[k]))
  }

  /** The flags after a signal may have arrived. */
  function Arrive(f: Flags, signal: bool): Flags
  {
    if signal then Signal(f) else f
  }

  /** `quit && !shutting_down`: the iteration that calls `save_all`. */
  predicate Saving(f: Flags)
  {
    f.quit && !f.shuttingDown
  }

  /** The flags after the save check: saving sets `shutting_down` and installs the forceful handlers. */
  function SaveCheck(f: Flags): Flags
  {
    if Saving(f) then f.(shuttingDown := true, handler := Forceful) else f
  }

  /** What one iteration does, given the flags after the sleep. */
  function TickEffects(f: Flags, popped: seq<Alert>, debugOpen: bool): seq<Effect>
  {
    (if debugOpen then TraceLines(popped) else [])
    + [Dispatch(popped)]
    + (if f.shuttingDown then [] else [PostTorrentUpdates])
    + (if Saving(f) then [SaveAll] else [])
  }

  /** One iteration of the loop body. */
  function Tick(f: Flags, t: TickInput, debugOpen: bool): TickResult
  {
    var f1 := Arrive(f, t.signalDuringSleep);
    var f3 := Arrive(SaveCheck(f1), t.signalBeforeBreak);
    if f3.forceQuit then TickResult(f3, TickEffects(f1, t.popped, debugOpen), true)
    else TickResult(Arrive(f3, t.signalBeforeTest), TickEffects(f1, t.popped, debugOpen), false)
  }

  /** `r` with `effects` and `n` iterations done before it. */
  function After(effects: seq<Effect>, n: nat, r: Run): Run
  {
    r.(effects := effects + r.effects, ticks := n + r.ticks)
  }

  /** The loop from flags `f`, one input per iteration. */
  function RunLoop(f: Flags, ticks: seq<TickInput>, debugOpen: bool): Run
    decreases |ticks|
  {
    if ticks == [] then Run(StillRunning, f, [], 0)
    else if !LoopTest(f, ticks[0].okToQuit) then Run(Quit, f, [], 0)
    else
      var t := Tick(f, ticks[0], debugOpen);
      if t.broke then Run(Forced, t.flags, t.effects, 1)
      else After(t.effects, 1, RunLoop(t.flags, ticks[1..], debugOpen))
  }

  /**
   * The installed handler running: `sighandler` sets `quit`,
   * `sighandler_forcequit` sets `force_quit`.
   */
  method RaiseSignal(handler: Handler, quit: bool, forceQuit: bool) returns (quit': bool, forceQuit': bool)
    ensures Flags(quit', forceQuit', false, handler) == Signal(Flags(quit, forceQuit, false, handler))
  {
    quit', forceQuit' := quit, forceQuit;
    if handler == Graceful {
      quit' := true;
    } else {
      forceQuit' := true;
    }
  }

  /** The loop over the alert queue that writes one debug-log line per alert, in queue order. */
  method WriteDebugTrace(trace: seq<Effect>, alertQueue: seq<Alert>) returns (trace': seq<Effect>)
    ensures trace' == trace + TraceLines(alertQueue)
  {
    trace' := trace;
    for k := 0 to |alertQueue|
      invariant trace' == trace + TraceLines(alertQueue[..k])
    {
      trace' := trace' + [TraceLine(alertQueue[k])];
    }
    assert alertQueue[..|alertQueue|] == alertQueue;
  }

  /** Unfolding one iteration that neither ends the loop nor breaks it. */
  lemma RunLoopStep(f: Flags, ticks: seq<TickInput>, debugOpen: bool)
    requires ticks != [] && LoopTest(f, ticks[0].okToQuit) && !Tick(f, ticks[0], debugOpen).broke
    ensures RunLoop(f, ticks, debugOpen)
         == After(Tick(f, ticks[0], debugOpen).effects, 1, RunLoop(Tick(f, ticks[0], debugOpen).flags, ticks[1..], debugOpen))
  {
  }

  lemma AfterAfter(e1: seq<Effect>, n1: nat, e2: seq<Effect>, n2: nat, r: Run)
    ensures After(e1, n1, After(e2, n2, r)) == After(e1 + e2, n1 + n2, r)
  {
    assert e1 + (e2 + r.effects) == (e1 + e2) + r.effects;
  }

  /**
   * The body of the loop of `main` (lines 417-436): sleep, pop and trace the
   * alerts, dispatch them, post torrent updates, start the shutdown, and
   * check `force_quit`. `broke` says whether the `break` was taken; a signal
   * after that check lands only when it was not.
   */
  method Iteration(quit: bool, forceQuit: bool, shuttingDown: bool, handler: Handler,
                   t: TickInput, debugOpen: bool, effects: seq<Effect>)
    returns (quit': bool, forceQuit': bool, shuttingDown': bool, handler': Handler,
             effects': seq<Effect>, broke: bool)
    ensures var tick := Tick(Flags(quit, forceQuit, shuttingDown, handler), t, debugOpen);
      && Flags(quit', forceQuit', shuttingDown', handler') == tick.flags
      && effects' == effects + tick.effects
      && broke == tick.broke
  {
    quit', forceQuit', shuttingDown', handler', effects' := quit, forceQuit, shuttingDown, handler, effects;
    // usleep(1000000)
    if t.signalDuringSleep {
      quit', forceQuit' := RaiseSignal(handler', quit', forceQuit');
    }
    ghost var awake := Flags(quit', forceQuit', shuttingDown', handler');
    var alertQueue := t.popped;
    if debugOpen {
      effects' := WriteDebugTrace(effects', alertQueue);
    }
    ghost var shown := if debugOpen then TraceLines(alertQueue) else [];
    assert effects' == effects + shown;
    effects' := effects' + [Dispatch(alertQueue)];
    ghost var dispatched := shown + [Dispatch(alertQueue)];
    assert effects' == effects + dispatched;
    if !shuttingDown' {
      effects' := effects' + [PostTorrentUpdates];
    }
    ghost var posted := dispatched + (if awake.shuttingDown then [] else [PostTorrentUpdates]);
    assert effects' == effects + posted;
    if quit' && !shuttingDown' {
      effects' := effects' + [SaveAll];
      shuttingDown' := true;
      handler' := Forceful;
    }
    assert effects' == effects + TickEffects(awake, alertQueue, debugOpen);
    if t.signalBeforeBreak {
      quit', forceQuit' := RaiseSignal(handler', quit', forceQuit');
    }
    broke := forceQuit';
    if !broke && t.signalBeforeTest {
      quit', forceQuit' := RaiseSignal(handler', quit', forceQuit');
    }
  }

  /**
   * The loop of `main`, lines 413-437: `while (!quit || !resume.ok_to_quit())`
   * around the body above. `debugOpen` says whether the debug log is open.
   */
  method MainLoop(signalBeforeLoop: bool, debugOpen: bool, ticks: seq<TickInput>) returns (r: Run)
    ensures r == RunLoop(Start(signalBeforeLoop), ticks, debugOpen)
  {
    var quit, forceQuit, shuttingDown, handler := signalBeforeLoop, false, false, Graceful;
    var effects: seq<Effect> := [];
    var outcome := StillRunning;
    var i := 0;
    while i < |ticks| && (!quit || !ticks[i].okToQuit)
      invariant 0 <= i <= |ticks|
      invariant RunLoop(Start(signalBeforeLoop), ticks, debugOpen)
             == After(effects, i, RunLoop(Flags(quit, forceQuit, shuttingDown, handler), ticks[i..], debugOpen))
      invariant outcome == StillRunning
      decreases |ticks| - i
    {
      ghost var before := Flags(quit, forceQuit, shuttingDown, handler);
      ghost var effectsBefore := effects;
      var broke;
      quit, forceQuit, shuttingDown, handler, effects, broke :=
        Iteration(quit, forceQuit, shuttingDown, handler, ticks[i], debugOpen, effects);
      if broke {
        outcome := Forced;
        i := i + 1;
        break;
      }
      RunLoopStep(before, ticks[i..], debugOpen);
      assert ticks[i..][1..] == ticks[i + 1..];
      AfterAfter(effectsBefore, i, Tick(before, ticks[i], debugOpen).effects, 1,
                 RunLoop(Flags(quit, forceQuit, shuttingDown, handler), ticks[i + 1..], debugOpen));
      i := i + 1;
    }
    if outcome == StillRunning && i < |ticks| {
      outcome := Quit;
    }
    r := Run(outcome, Flags(quit, forceQuit, shuttingDown, handler), effects, i);
  }

  // ---------------------------------------------------------------------
  // Properties of the loop
  // ---------------------------------------------------------------------

  /**
   * The flags the loop can reach: the forceful handlers are installed exactly
   * once shutting down, which only starts after `quit`, and `force_quit` can only
   * be set by a forceful handler.
   */
  predicate Consistent(f: Flags)
  {
    && (f.shuttingDown <==> f.handler == Forceful)
    && (f.shuttingDown ==> f.quit)
    && (f.forceQuit ==> f.shuttingDown)
  }

  function Count(e: seq<Effect>, x: Effect): nat
  {
    if e == [] then 0 else (if e[0] == x then 1 else 0) + Count(e[1..], x)
  }

  lemma {:induction false} CountAppend(a: seq<Effect>, b: seq<Effect>, x: Effect)
    ensures Count(a + b, x) == Count(a, x) + Count(b, x)
  {
    if a != [] {
      assert (a + b)[1..] == a[1..] + b;
      CountAppend(a[1..], b, x);
    } else {
      assert a + b == b;
    }
  }

  lemma {:induction false} CountAbsent(e: seq<Effect>, x: Effect)
    ensures Count(e, x) == 0 <==> x !in e
  {
    if e != [] {
      CountAbsent(e[1..], x);
      assert x in e <==> e[0] == x || x in e[1..] by {
        assert e == [e[0]] + e[1..];
      }
    }
  }

  /**
   * One iteration from reachable flags: it keeps them reachable; it calls
   * `save_all` exactly when not yet shutting down and `quit` is set, either
   * before the iteration or by a signal during the sleep, and that same
   * iteration installs the forceful handlers; it posts torrent updates exactly
   * when not yet shutting down; and it can only break once shutting down.
   */
  lemma TickFacts(f: Flags, t: TickInput, debugOpen: bool)
    requires Consistent(f)
    ensures var r := Tick(f, t, debugOpen);
      && Consistent(r.flags)
      && (f.shuttingDown ==> r.flags.shuttingDown)
      && Count(r.effects, SaveAll) == (if !f.shuttingDown && (f.quit || t.signalDuringSleep) then 1 else 0)
      && (Count(r.effects, SaveAll) == 1 <==> !f.shuttingDown && r.flags.shuttingDown)
      && (Count(r.effects, SaveAll) == 1 ==> r.flags.handler == Forceful)
      && (PostTorrentUpdates in r.effects <==> !f.shuttingDown)
      && (r.broke ==> r.flags.forceQuit && r.flags.shuttingDown)
  {
    var f1 := Arrive(f, t.signalDuringSleep);
    var shown := if debugOpen then TraceLines(t.popped) else [];
    var posted := shown + [Dispatch(t.popped)] + (if f1.shuttingDown then [] else [PostTorrentUpdates]);
    var saved: seq<Effect> := if Saving(f1) then [SaveAll] else [];
    assert TickEffects(f1, t.popped, debugOpen) == posted + saved;
    CountAbsent(shown, SaveAll);
    CountAbsent(shown, PostTorrentUpdates);
    CountAppend(shown, [Dispatch(t.popped)], SaveAll);
    CountAppend(shown + [Dispatch(t.popped)], if f1.shuttingDown then [] else [PostTorrentUpdates], SaveAll);
    CountAppend(posted, saved, SaveAll);
  }

  /**
   * From reachable flags, `save_all` is called at most once: once exactly
   * when the run moved from not shutting down to shutting down.
   */
  lemma {:induction false} SaveAllAtMostOnce(f: Flags, ticks: seq<TickInput>, debugOpen: bool)
    requires Consistent(f)
    ensures var r := RunLoop(f, ticks, debugOpen);
      && Consistent(r.flags)
      && (f.shuttingDown ==> r.flags.shuttingDown)
      && Count(r.effects, SaveAll) == (if !f.shuttingDown && r.flags.shuttingDown then 1 else 0)
    decreases |ticks|
  {
    if ticks != [] && LoopTest(f, ticks[0].okToQuit) {
      var t := Tick(f, ticks[0], debugOpen);
      TickFacts(f, ticks[0], debugOpen);
      if !t.broke {
        SaveAllAtMostOnce(t.flags, ticks[1..], debugOpen);
        CountAppend(t.effects, RunLoop(t.flags, ticks[1..], debugOpen).effects, SaveAll);
      }
    }
  }

  /**
   * The loop ends only when the loop test fails, that is `quit` holds and
   * `ok_to_quit()` returned true, or at the `break` once `force_quit` is set.
   */
  lemma {:induction false} LoopEndsOnlyWhen(f: Flags, ticks: seq<TickInput>, debugOpen: bool)
    ensures var r := RunLoop(f, ticks, debugOpen);
      && r.ticks <= |ticks|
      && (r.outcome == Quit ==> r.ticks < |ticks| && r.flags.quit && ticks[r.ticks].okToQuit)
      && (r.outcome == Forced ==> 1 <= r.ticks && r.flags.forceQuit)
      && (r.outcome == StillRunning ==> r.ticks == |ticks|)
    decreases |ticks|
  {
    if ticks != [] && LoopTest(f, ticks[0].okToQuit) {
      var t := Tick(f, ticks[0], debugOpen);
      if !t.broke {
        LoopEndsOnlyWhen(t.flags, ticks[1..], debugOpen);
      }
    }
  }

  /** A forced exit always comes after `save_all`: the forceful handlers are only installed by it. */
  lemma ForcedExitFollowsSaveAll(signalBeforeLoop: bool, ticks: seq<TickInput>, debugOpen: bool)
    ensures var r := RunLoop(Start(signalBeforeLoop), ticks, debugOpen);
      r.outcome == Forced ==> Count(r.effects, SaveAll) == 1
  {
    SaveAllAtMostOnce(Start(signalBeforeLoop), ticks, debugOpen);
    LoopEndsOnlyWhen(Start(signalBeforeLoop), ticks, debugOpen);
  }

  /**
   * A graceful exit has called `save_all` exactly when shutting down had
   * started; an exit with `shutting_down` still false has saved nothing.
   */
  lemma GracefulExitSavedIff(signalBeforeLoop: bool, ticks: seq<TickInput>, debugOpen: bool)
    ensures var r := RunLoop(Start(signalBeforeLoop), ticks, debugOpen);
      r.outcome == Quit ==> (SaveAll in r.effects <==> r.flags.shuttingDown)
  {
    var r := RunLoop(Start(signalBeforeLoop), ticks, debugOpen);
    SaveAllAtMostOnce(Start(signalBeforeLoop), ticks, debugOpen);
    CountAbsent(r.effects, SaveAll);
  }

  /**
   * The loop can exit without ever calling `save_all`: a signal that arrives
   * after the save check sets `quit`, and the next loop test finds
   * `ok_to_quit()` true.
   */
  lemma LateSignalExitsWithoutSaveAll()
    ensures var r := RunLoop(Start(false),
                             [TickInput(false, false, [], false, true), TickInput(true, false, [], false, false)],
                             false);
      r.outcome == Quit && r.ticks == 1 && SaveAll !in r.effects
  {
  }

  /** Likewise when the signal comes before the loop and `ok_to_quit()` is true at once. */
  lemma EarlySignalExitsWithoutSaveAll(popped: seq<Alert>, debugOpen: bool)
    ensures RunLoop(Start(true), [TickInput(true, false, popped, false, false)], debugOpen)
         == Run(Quit, Start(true), [], 0)
  {
  }

  /** No effect list has torrent updates posted after `save_all`. */
  predicate NoPostAfterSave(e: seq<Effect>)
  {
    forall i, j :: 0 <= i < j < |e| && e[i] == SaveAll ==> e[j] != PostTorrentUpdates
  }

  /**
   * `post_torrent_updates` is called only while not shutting down: never
   * after `save_all`, and never at all from flags already shutting down.
   */
  lemma {:induction false} PostOnlyBeforeShutdown(f: Flags, ticks: seq<TickInput>, debugOpen: bool)
    requires Consistent(f)
    ensures var e := RunLoop(f, ticks, debugOpen).effects;
      && (f.shuttingDown ==> PostTorrentUpdates !in e)
      && NoPostAfterSave(e)
    decreases |ticks|
  {
    if ticks != [] && LoopTest(f, ticks[0].okToQuit) {
      var t := Tick(f, ticks[0], debugOpen);
      TickFacts(f, ticks[0], debugOpen);
      TickEffectsEndWithSave(f, ticks[0], debugOpen);
      if !t.broke {
        var rest := RunLoop(t.flags, ticks[1..], debugOpen).effects;
        PostOnlyBeforeShutdown(t.flags, ticks[1..], debugOpen);
        CountAbsent(t.effects, SaveAll);
        NoPostAfterSaveAppend(t.effects, rest);
      }
    }
  }

  lemma NoPostAfterSaveAppend(a: seq<Effect>, b: seq<Effect>)
    requires NoPostAfterSave(a) && NoPostAfterSave(b)
    requires SaveAll in a ==> PostTorrentUpdates !in b
    ensures NoPostAfterSave(a + b)
  {
    var e := a + b;
    forall i, j | 0 <= i < j < |e| && e[i] == SaveAll ensures e[j] != PostTorrentUpdates {
      if i < |a| {
        assert a[i] == SaveAll;
        if j >= |a| {
          assert e[j] == b[j - |a|];
        } else {
          assert e[j] == a[j];
        }
      } else {
        assert b[i - |a|] == SaveAll && e[j] == b[j - |a|];
      }
    }
  }

  /** Within one iteration `save_all` is the last effect. */
  lemma TickEffectsEndWithSave(f: Flags, t: TickInput, debugOpen: bool)
    ensures NoPostAfterSave(Tick(f, t, debugOpen).effects)
  {
    var f1 := Arrive(f, t.signalDuringSleep);
    var shown := if debugOpen then TraceLines(t.popped) else [];
    var posted := shown + [Dispatch(t.popped)] + (if f1.shuttingDown then [] else [PostTorrentUpdates]);
    var saved: seq<Effect> := if Saving(f1) then [SaveAll] else [];
    var e := posted + saved;
    assert TickEffects(f1, t.popped, debugOpen) == e;
    assert SaveAll !in posted;
    assert forall i :: 0 <= i < |e| && e[i] == SaveAll ==> i == |e| - 1;
  }

  // The debug trace.

  /** The alerts written to the debug log, in order. */
  function Traced(e: seq<Effect>): seq<Alert>
  {
    if e == [] then []
    else (match e[0] case TraceLine(a) => [a] case _ => []) + Traced(e[1..])
  }

  /** The batches handed to `dispatch_alerts`, in order. */
  function Dispatched(e: seq<Effect>): seq<seq<Alert>>
  {
    if e == [] then []
    else (match e[0] case Dispatch(b) => [b] case _ => []) + Dispatched(e[1..])
  }

  function Flatten(batches: seq<seq<Alert>>): seq<Alert>
  {
    if batches == [] then [] else batches[0] + Flatten(batches[1..])
  }

  function Popped(ticks: seq<TickInput>): seq<seq<Alert>>
  {
    if ticks == [] then [] else [ticks[0].popped] + Popped(ticks[1..])
  }

  lemma {:induction false} TracedDispatchedAppend(a: seq<Effect>, b: seq<Effect>)
    ensures Traced(a + b) == Traced(a) + Traced(b)
    ensures Dispatched(a + b) == Dispatched(a) + Dispatched(b)
  {
    if a != [] {
      assert (a + b)[0] == a[0];
      assert (a + b)[1..] == a[1..] + b;
      TracedDispatchedAppend(a[1..], b);
    } else {
      assert a + b == b;
    }
  }

  lemma SingleEffect(x: Effect)
    ensures Traced([x]) == if x.TraceLine? then [x.alert] else []
    ensures Dispatched([x]) == if x.Dispatch? then [x.batch] else []
  {
    assert [x][1..] == [];
  }

  lemma {:induction false} TracedLines(batch: seq<Alert>)
    ensures Traced(TraceLines(batch)) == batch
    ensures Dispatched(TraceLines(batch)) == []
  {
    if batch != [] {
      assert TraceLines(batch)[1..] == TraceLines(batch[1..]);
      TracedLines(batch[1..]);
    }
  }

  lemma {:induction false} FlattenAppend(a: seq<seq<Alert>>, b: seq<seq<Alert>>)
    ensures Flatten(a + b) == Flatten(a) + Flatten(b)
  {
    if a != [] {
      assert (a + b)[0] == a[0];
      assert (a + b)[1..] == a[1..] + b;
      FlattenAppend(a[1..], b);
    } else {
      assert a + b == b;
    }
  }

  /** One iteration traces its popped alerts (when the debug log is open) and dispatches them once. */
  lemma TickTrace(f: Flags, t: TickInput, debugOpen: bool)
    ensures Dispatched(Tick(f, t, debugOpen).effects) == [t.popped]
    ensures Traced(Tick(f, t, debugOpen).effects) == if debugOpen then t.popped else []
  {
    var f1 := Arrive(f, t.signalDuringSleep);
    assert Tick(f, t, debugOpen).effects == TickEffects(f1, t.popped, debugOpen);
    TickEffectsTrace(f1, t.popped, debugOpen);
  }

  lemma TickEffectsTrace(f1: Flags, popped: seq<Alert>, debugOpen: bool)
    ensures Dispatched(TickEffects(f1, popped, debugOpen)) == [popped]
    ensures Traced(TickEffects(f1, popped, debugOpen)) == if debugOpen then popped else []
  {
    var shown := if debugOpen then TraceLines(popped) else [];
    var post: seq<Effect> := if f1.shuttingDown then [] else [PostTorrentUpdates];
    var save: seq<Effect> := if Saving(f1) then [SaveAll] else [];
    SingleEffect(PostTorrentUpdates);
    SingleEffect(SaveAll);
    SingleEffect(Dispatch(popped));
    TracedLines(popped);
    var traced := if debugOpen then popped else [];
    assert Traced(shown) == traced && Dispatched(shown) == [];
    assert Traced(post) == [] && Dispatched(post) == [];
    assert Traced(save) == [] && Dispatched(save) == [];
    var a1 := shown + [Dispatch(popped)];
    TracedDispatchedAppend(shown, [Dispatch(popped)]);
    var a2 := a1 + post;
    TracedDispatchedAppend(a1, post);
    assert Traced(a2) == traced && Dispatched(a2) == [popped];
    TracedDispatchedAppend(a2, save);
    assert TickEffects(f1, popped, debugOpen) == a2 + save;
  }

  /**
   * The trace lines of an iteration, in queue order, come before its
   * dispatch: together they open the iteration's effects.
   */
  lemma TraceBeforeDispatch(f: Flags, t: TickInput, debugOpen: bool)
    ensures var shown := if debugOpen then TraceLines(t.popped) else [];
      && |shown| + 1 <= |Tick(f, t, debugOpen).effects|
      && Tick(f, t, debugOpen).effects[..|shown| + 1] == shown + [Dispatch(t.popped)]
  {
  }

  /**
   * Every popped batch is dispatched once, in iteration order, and the debug
   * log, when open, holds one line per dispatched alert in the same order
   * (and nothing when closed).
   */
  lemma {:induction false} TraceMirrorsDispatch(f: Flags, ticks: seq<TickInput>, debugOpen: bool)
    ensures var r := RunLoop(f, ticks, debugOpen);
      && r.ticks <= |ticks|
      && Dispatched(r.effects) == Popped(ticks[..r.ticks])
      && Traced(r.effects) == if debugOpen then Flatten(Dispatched(r.effects)) else []
    decreases |ticks|
  {
    if ticks != [] && LoopTest(f, ticks[0].okToQuit) {
      var t := Tick(f, ticks[0], debugOpen);
      TickTrace(f, ticks[0], debugOpen);
      if t.broke {
        assert ticks[..1] == [ticks[0]];
        assert Popped([ticks[0]]) == [ticks[0].popped];
        assert Flatten([ticks[0].popped]) == ticks[0].popped;
      } else {
        TraceMirrorsDispatch(t.flags, ticks[1..], debugOpen);
        MirrorStep(ticks, debugOpen, t.effects, RunLoop(t.flags, ticks[1..], debugOpen));
      }
    }
  }

  /** The inductive step: one iteration's effects before a run that mirrors its inputs. */
  lemma MirrorStep(ticks: seq<TickInput>, debugOpen: bool, e: seq<Effect>, rest: Run)
    requires ticks != []
    requires Dispatched(e) == [ticks[0].popped]
    requires Traced(e) == if debugOpen then ticks[0].popped else []
    requires rest.ticks <= |ticks[1..]|
    requires Dispatched(rest.effects) == Popped(ticks[1..][..rest.ticks])
    requires Traced(rest.effects) == if debugOpen then Flatten(Dispatched(rest.effects)) else []
    ensures var r := After(e, 1, rest);
      && r.ticks <= |ticks|
      && Dispatched(r.effects) == Popped(ticks[..r.ticks])
      && Traced(r.effects) == if debugOpen then Flatten(Dispatched(r.effects)) else []
  {
    TracedDispatchedAppend(e, rest.effects);
    assert ticks[..1 + rest.ticks] == [ticks[0]] + ticks[1..][..rest.ticks];
    FlattenAppend([ticks[0].popped], Dispatched(rest.effects));
    assert Flatten([ticks[0].popped]) == ticks[0].popped;
  }
}
