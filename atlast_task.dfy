/**
 * The command run-state machine of the ATLAST interpreter task.
 *
 * One shared record holds a FIFO queue of command strings and three flags.
 * Producers append through `atlastCommand`, the interpreter task polls the
 * start flag, drains the queue one command at a time and resets the record,
 * `atlastInit` queues the bootstrap script and `atlastKill` cancels
 * cooperatively or restarts the task. Every critical section is one atomic
 * step here: a pure transition on the value `Run`, and a method of the class
 * `RunState` that performs it on fields and is proved to match it.
 */
module AtlastTask {
  import opened Util

  /** What the submitter and the worker print through multiPrintf, in order. */
  datatype Msg =
    | Echo(command: string)                                          // "> %.252s\n"
    | QueueDebug(size: nat, start: bool, kill: bool, running: bool)  // the DEBUG status line
    | Ok                                                             // "\n  ok\n"
    | NoTaskHandle                                                   // "ERROR: Task handle is NULL, ..."

  /** The commands atlastInit queues: load and run the startup script. */
  const Bootstrap: seq<string> := [
    "file startupfile",
    "\"/atl/run-on-startup.atl\" 1 startupfile fopen",
    "startupfile fload",
    "startupfile fclose"
  ]

  /** The longest command whose "> %s\n" echo fits multiPrintf's buffer with its NUL. */
  const EchoLimit: nat := 252

  /** What "> %s\n" formats for the command `cmd`. */
  function EchoFormat(cmd: string): string
  {
    "> " + cmd + "\n"
  }

  /**
   * The echo as written: vsprintf formats "> %s\n" into the 256-byte buffer
   * with no bound, so a command whose echo does not fit with its NUL writes
   * past the buffer (None: undefined behaviour); otherwise it is printed.
   */
  function EchoAsWritten(cmd: string): (r: Option<string>)
    ensures r.Some? <==> |cmd| <= EchoLimit
    ensures r.Some? ==> r.value == EchoFormat(cmd)
  {
    var formatted := EchoFormat(cmd);
    if |formatted| < PrintfBuffSize then Some(formatted) else None
  }

  /**
   * A 253-character command, which the 256-byte input buffers can deliver as
   * a NUL-free string, overflows the echo's buffer.
   */
  lemma EchoOverflows()
    ensures var cmd := seq(253, _ => 'a');
      |cmd| < 256 && '\0' !in cmd && EchoAsWritten(cmd) == None
  {
  }

  /** The corrected echo, "> %.252s\n": the command bounded to what fits beside the format's 3 characters. */
  function EchoCommand(cmd: string): string
  {
    Fitted(cmd, |EchoFormat("")|)
  }

  /** The echoes of the commands, in order. */
  function EchoedAll(cmds: seq<string>): (r: seq<string>)
    ensures |r| == |cmds|
    ensures forall i :: 0 <= i < |cmds| ==> r[i] == EchoCommand(cmds[i])
  {
    if cmds == [] then [] else EchoedAll(cmds[..|cmds| - 1]) + [EchoCommand(cmds[|cmds| - 1])]
  }

  /** Commands of at most 252 characters are echoed whole. */
  lemma EchoedWhole(cmds: seq<string>)
    requires forall i :: 0 <= i < |cmds| ==> |cmds[i]| <= EchoLimit
    ensures EchoedAll(cmds) == cmds
  {
  }

  /** Clears the interpreter's return stack after a restart and keeps its data stack. */
  const Quit: string := "quit"

  /**
   * The run data together with what the model observes of its collaborators:
   * whether a task handle exists, how many tasks were created, the commands
   * handed to the evaluator, the calls of its cooperative break hook, and the
   * printed messages.
   */
  datatype Run = Run(
    commands: seq<string>,
    startFlag: bool,
    killFlag: bool,
    isRunning: bool,
    task: bool,
    spawned: nat,
    evaluated: seq<string>,
    breaks: nat,
    out: seq<Msg>)

  /** The state at process start: empty queue, all flags false, no task yet. */
  function Initial(): Run
  {
    Run([], false, false, false, false, 0, [], 0, [])
  }

  /** Start is only requested of an idle worker, and a kill only of a running one. */
  predicate Inv(r: Run)
  {
    (r.startFlag ==> !r.isRunning) && (r.killFlag ==> r.isRunning)
  }

  /** The command texts echoed in a message log, in order. */
  function Echoes(out: seq<Msg>): seq<string>
  {
    if out == [] then []
    else Echoes(out[..|out| - 1]) + (if out[|out| - 1].Echo? then [out[|out| - 1].command] else [])
  }

  /** atlastCommand: echo (bounded), print the queue status, append, and request a start if idle. */
  function Submitted(r: Run, cmd: string): Run
  {
    r.(out := r.out + [Echo(EchoCommand(cmd)), QueueDebug(|r.commands|, r.startFlag, r.killFlag, r.isRunning)],
       commands := r.commands + [cmd],
       startFlag := if r.isRunning then r.startFlag else true)
  }

  /** Several producers' submissions, serialised in the order they took the mutex. */
  function SubmittedAll(r: Run, cmds: seq<string>): Run
    decreases |cmds|
  {
    if cmds == [] then r else Submitted(SubmittedAll(r, cmds[..|cmds| - 1]), cmds[|cmds| - 1])
  }

  /** startAtlastRun: take a pending start request. */
  function Started(r: Run): Run
  {
    if r.startFlag then r.(startFlag := false, isRunning := true) else r
  }

  /** resetAtlastRun: drop the queue and clear all three flags. */
  function Cleared(r: Run): Run
  {
    r.(commands := [], startFlag := false, killFlag := false, isRunning := false)
  }

  /** The cooperative part of atlastKill: flag the running drain and call the break hook. */
  function Broken(r: Run): Run
  {
    if r.isRunning then r.(killFlag := true, breaks := r.breaks + 1) else r
  }

  /** atlastKill(restart). */
  function Killed(r: Run, restart: bool): Run
  {
    var k := Broken(r);
    if !restart then k
    else if !k.task then k.(out := k.out + [NoTaskHandle])
    else Cleared(k).(spawned := k.spawned + 1, commands := [Quit], startFlag := true)
  }

  /** What another task does while the worker evaluates a command and the mutex is released. */
  datatype Interleaved = Submit(cmd: string) | Interrupt

  /** The events of one window between the worker's mutex sections, applied in order. */
  function Window(r: Run, w: seq<Interleaved>): Run
    decreases |w|
  {
    if w == [] then r
    else
      var p := Window(r, w[..|w| - 1]);
      match w[|w| - 1]
      case Submit(c) => Submitted(p, c)
      case Interrupt => Killed(p, false)
  }

  /** The commands submitted in a window, in order. */
  function Arrived(w: seq<Interleaved>): seq<string>
  {
    if w == [] then []
    else Arrived(w[..|w| - 1]) + (if w[|w| - 1].Submit? then [w[|w| - 1].cmd] else [])
  }

  /** The number of cooperative kills in a window. */
  function Interrupts(w: seq<Interleaved>): nat
  {
    if w == [] then 0
    else Interrupts(w[..|w| - 1]) + (if w[|w| - 1].Interrupt? then 1 else 0)
  }

  /** atlastInit: create the task and queue the bootstrap script. */
  function Booted(r: Run): Run
  {
    r.(task := true, spawned := r.spawned + 1, commands := r.commands + Bootstrap, startFlag := true)
  }

  /**
   * One iteration of the drain loop: evaluate the front command; while the mutex
   * is released, the window `w` of submissions and cooperative kills lands, in
   * its order; then pop the front and print "ok". A round on an empty queue
   * does nothing (the loop never runs one).
   */
  function Round(r: Run, w: seq<Interleaved>): Run
  {
    if r.commands == [] then r
    else
      var e := r.(evaluated := r.evaluated + [r.commands[0]]);
      var k := Window(e, w);
      WindowEffect(e, w);
      k.(commands := k.commands[1..], out := k.out + [Ok])
  }

  /** The first `n` rounds of a drain, round `i` seeing windows[i]. */
  function Rounds(r: Run, windows: seq<seq<Interleaved>>, n: nat): Run
  {
    if n == 0 then r
    else Round(Rounds(r, windows, n - 1), At(windows, n - 1, []))
  }

  /** Each of the first `n` rounds started on a non-empty queue with no kill flag. */
  predicate Live(r: Run, windows: seq<seq<Interleaved>>, n: nat)
  {
    n == 0 ||
    (Live(r, windows, n - 1) &&
     var p := Rounds(r, windows, n - 1);
     p.commands != [] && !p.killFlag)
  }

  /** The commands submitted during the first `n` rounds, in order. */
  function Arrivals(windows: seq<seq<Interleaved>>, n: nat): seq<string>
  {
    if n == 0 then [] else Arrivals(windows, n - 1) + Arrived(At(windows, n - 1, []))
  }

  /** The drain has left its loop: the queue is empty, or a kill was seen. */
  predicate Stopped(r: Run)
  {
    r.commands == [] || r.killFlag
  }

  // ---------------------------------------------------------------- lemmas

  lemma {:induction false} EchoesAppend(a: seq<Msg>, b: seq<Msg>)
    ensures Echoes(a + b) == Echoes(a) + Echoes(b)
    decreases |b|
  {
    if b == [] {
      assert a + b == a;
    } else {
      assert (a + b)[..|a + b| - 1] == a + b[..|b| - 1];
      EchoesAppend(a, b[..|b| - 1]);
    }
  }

  /**
   * Submissions append at the back of the queue in submission order and are
   * echoed (bounded to the printf buffer) in that order; they request a start only of an idle worker, and
   * touch nothing else.
   */
  lemma {:induction false} SubmittedAllQueue(r: Run, cmds: seq<string>)
    ensures var p := SubmittedAll(r, cmds);
      p.commands == r.commands + cmds &&
      r.out <= p.out && Echoes(p.out) == Echoes(r.out) + EchoedAll(cmds) &&
      p.startFlag == (if r.isRunning || cmds == [] then r.startFlag else true) &&
      p.killFlag == r.killFlag && p.isRunning == r.isRunning &&
      p.task == r.task && p.spawned == r.spawned &&
      p.evaluated == r.evaluated && p.breaks == r.breaks
    decreases |cmds|
  {
    if cmds != [] {
      var init, c := cmds[..|cmds| - 1], cmds[|cmds| - 1];
      SubmittedAllQueue(r, init);
      SubmittedEcho(SubmittedAll(r, init), c);
      assert init + [c] == cmds;
    }
  }

  /** One submission's output adds exactly its bounded echo to the log's echoes. */
  lemma SubmittedEcho(q: Run, c: string)
    ensures q.out <= Submitted(q, c).out
    ensures Echoes(Submitted(q, c).out) == Echoes(q.out) + [EchoCommand(c)]
  {
    var m := [Echo(EchoCommand(c)), QueueDebug(|q.commands|, q.startFlag, q.killFlag, q.isRunning)];
    EchoesAppend(q.out, m);
    assert m[..|m| - 1] == [Echo(EchoCommand(c))];
    assert [Echo(EchoCommand(c))][..0] == [];
    assert Echoes([Echo(EchoCommand(c))]) == [EchoCommand(c)];
    assert Echoes(m) == [EchoCommand(c)];
  }

  /**
   * A window appends its submissions at the back of the queue in order and
   * echoes them in order; each kill in it, when the worker runs, raises the
   * kill flag and calls the break hook once; nothing else changes.
   */
  lemma WindowEffect(r: Run, w: seq<Interleaved>)
    ensures var p := Window(r, w);
      p.commands == r.commands + Arrived(w) &&
      r.out <= p.out && Echoes(p.out) == Echoes(r.out) + EchoedAll(Arrived(w)) &&
      p.startFlag == (if r.isRunning || Arrived(w) == [] then r.startFlag else true) &&
      p.killFlag == (r.killFlag || (r.isRunning && Interrupts(w) > 0)) &&
      p.breaks == r.breaks + (if r.isRunning then Interrupts(w) else 0) &&
      p.isRunning == r.isRunning && p.task == r.task && p.spawned == r.spawned &&
      p.evaluated == r.evaluated
  {
    WindowQueue(r, w);
    WindowFlags(r, w);
  }

  /** The queue, the start flag and the echoes after a window. */
  lemma {:induction false} WindowQueue(r: Run, w: seq<Interleaved>)
    ensures var p := Window(r, w);
      p.commands == r.commands + Arrived(w) &&
      r.out <= p.out && Echoes(p.out) == Echoes(r.out) + EchoedAll(Arrived(w)) &&
      p.startFlag == (if r.isRunning || Arrived(w) == [] then r.startFlag else true)
    decreases |w|
  {
    if w != [] {
      var init := w[..|w| - 1];
      WindowQueue(r, init);
      WindowFlags(r, init);
      if w[|w| - 1].Submit? {
        SubmitStep(r, Window(r, init), Arrived(init), w[|w| - 1].cmd);
      }
    }
  }

  /** One more submission at the end of a window keeps the queue and echo relations of WindowQueue. */
  lemma SubmitStep(r: Run, q: Run, arrived: seq<string>, c: string)
    requires q.commands == r.commands + arrived
    requires r.out <= q.out && Echoes(q.out) == Echoes(r.out) + EchoedAll(arrived)
    requires q.startFlag == (if r.isRunning || arrived == [] then r.startFlag else true)
    requires q.isRunning == r.isRunning
    ensures var p := Submitted(q, c);
      p.commands == r.commands + (arrived + [c]) &&
      r.out <= p.out && Echoes(p.out) == Echoes(r.out) + EchoedAll(arrived + [c]) &&
      p.startFlag == (if r.isRunning then r.startFlag else true)
  {
    SubmittedEcho(q, c);
    assert (arrived + [c])[..|arrived + [c]| - 1] == arrived;
  }

  /** The kill flag, the break count and the rest of the run after a window. */
  lemma {:induction false} WindowFlags(r: Run, w: seq<Interleaved>)
    ensures var p := Window(r, w);
      p.killFlag == (r.killFlag || (r.isRunning && Interrupts(w) > 0)) &&
      p.breaks == r.breaks + (if r.isRunning then Interrupts(w) else 0) &&
      p.isRunning == r.isRunning && p.task == r.task && p.spawned == r.spawned &&
      p.evaluated == r.evaluated
    decreases |w|
  {
    if w != [] {
      WindowFlags(r, w[..|w| - 1]);
    }
  }

  /** While the worker runs, submissions leave the front of the queue alone. */
  lemma SubmitKeepsFront(r: Run, cmds: seq<string>)
    requires r.commands != []
    ensures SubmittedAll(r, cmds).commands[0] == r.commands[0]
  {
    SubmittedAllQueue(r, cmds);
  }

  /**
   * A round evaluates exactly the front command and then pops exactly that
   * command, whatever arrived meanwhile; the arrivals join the back.
   */
  lemma RoundQueue(r: Run, w: seq<Interleaved>)
    requires r.commands != []
    ensures var p := Round(r, w);
      p.evaluated == r.evaluated + [r.commands[0]] &&
      p.commands == r.commands[1..] + Arrived(w) &&
      p.isRunning == r.isRunning && p.task == r.task && p.spawned == r.spawned &&
      (r.isRunning ==> p.startFlag == r.startFlag) &&
      p.killFlag == (r.killFlag || (Interrupts(w) > 0 && r.isRunning)) &&
      p.breaks == r.breaks + (if r.isRunning then Interrupts(w) else 0)
  {
    WindowEffect(r.(evaluated := r.evaluated + [r.commands[0]]), w);
  }

  /**
   * A round's output extends the earlier output with the arrivals' echoes, in
   * order, and ends with the "ok" printed after the pop.
   */
  lemma RoundOutput(r: Run, w: seq<Interleaved>)
    requires r.commands != []
    ensures var p := Round(r, w);
      r.out < p.out && p.out[|p.out| - 1] == Ok && Echoes(p.out) == Echoes(r.out) + EchoedAll(Arrived(w))
  {
    var e := r.(evaluated := r.evaluated + [r.commands[0]]);
    WindowEffect(e, w);
    OutputOk(r.out, Window(e, w).out, EchoedAll(Arrived(w)));
  }

  /** Appending "ok" to an extension of a log keeps the extension's echoes. */
  lemma OutputOk(a: seq<Msg>, w: seq<Msg>, echoed: seq<string>)
    requires a <= w && Echoes(w) == Echoes(a) + echoed
    ensures var p := w + [Ok];
      a < p && p[|p| - 1] == Ok && Echoes(p) == Echoes(a) + echoed
  {
    EchoesAppend(w, [Ok]);
    assert [Ok][..0] == [];
  }

  /** Taking the front off a queue and putting it behind the evaluated commands keeps their concatenation. */
  lemma PopFront(evaluated: seq<string>, commands: seq<string>, arrived: seq<string>)
    requires commands != []
    ensures evaluated + [commands[0]] + (commands[1..] + arrived) == evaluated + commands + arrived
  {
    assert [commands[0]] + commands[1..] == commands;
  }

  /**
   * FIFO: across the executed rounds of a drain, the commands evaluated so
   * far followed by the ones still queued are exactly the initial queue
   * followed by everything submitted meanwhile, in order.
   */
  lemma {:induction false} RoundsFifo(r: Run, windows: seq<seq<Interleaved>>, n: nat)
    requires Live(r, windows, n)
    ensures var p := Rounds(r, windows, n);
      p.evaluated + p.commands == r.evaluated + r.commands + Arrivals(windows, n)
  {
    if n > 0 {
      RoundsFifo(r, windows, n - 1);
      var q := Rounds(r, windows, n - 1);
      var w := At(windows, n - 1, []);
      RoundQueue(q, w);
      PopFront(q.evaluated, q.commands, Arrived(w));
    }
  }

  /**
   * Start-once: while the worker drains, its rounds never set the start flag
   * (submissions during a run leave it as it was), keep it running, and keep
   * the task. Without kills the kill flag stays clear; a kill anywhere in
   * the last round's window raises it, which stops the loop before the next
   * command.
   */
  lemma {:induction false} RoundsFlags(r: Run, windows: seq<seq<Interleaved>>, n: nat)
    requires r.isRunning && Live(r, windows, n)
    ensures var p := Rounds(r, windows, n);
      p.isRunning && p.startFlag == r.startFlag && p.task == r.task && p.spawned == r.spawned &&
      (n == 0 ==> p.killFlag == r.killFlag) &&
      (n > 0 ==> p.killFlag == (Interrupts(At(windows, n - 1, [])) > 0))
  {
    if n > 0 {
      RoundsFlags(r, windows, n - 1);
      RoundQueue(Rounds(r, windows, n - 1), At(windows, n - 1, []));
    }
  }

  /** The invariant holds initially and is kept by every step of the machine. */
  lemma InvInitial()
    ensures Inv(Initial())
  {
  }

  lemma {:induction false} InvSubmittedAll(r: Run, cmds: seq<string>)
    requires Inv(r)
    ensures Inv(SubmittedAll(r, cmds))
  {
    SubmittedAllQueue(r, cmds);
  }

  lemma InvSteps(r: Run, restart: bool)
    requires Inv(r)
    ensures Inv(Started(r)) && Inv(Cleared(r)) && Inv(Killed(r, restart))
    ensures !r.isRunning ==> Inv(Booted(r))
  {
  }

  lemma {:induction false} InvRounds(r: Run, windows: seq<seq<Interleaved>>, n: nat)
    requires Inv(r) && r.isRunning && Live(r, windows, n)
    ensures Inv(Rounds(r, windows, n))
  {
    RoundsFlags(r, windows, n);
  }

  /**
   * An activation that starts on a pending request and sees no kill evaluates
   * every queued command and every command submitted while it ran, in FIFO
   * order, and ends with an empty queue and all flags clear.
   */
  lemma DrainEvaluatesAll(r: Run, windows: seq<seq<Interleaved>>, n: nat)
    requires Inv(r) && r.startFlag
    requires Live(Started(r), windows, n) && Stopped(Rounds(Started(r), windows, n))
    requires forall k :: 0 <= k < n ==> Interrupts(At(windows, k, [])) == 0
    ensures var p := Cleared(Rounds(Started(r), windows, n));
      p.evaluated == r.evaluated + r.commands + Arrivals(windows, n) &&
      p.commands == [] && !p.startFlag && !p.killFlag && !p.isRunning
  {
    var s := Started(r);
    RoundsFifo(s, windows, n);
    RoundsFlags(s, windows, n);
    var p := Rounds(s, windows, n);
    if n > 0 {
      assert Interrupts(At(windows, n - 1, [])) == 0;
    }
    assert p.commands == [];
    assert p.evaluated == r.evaluated + r.commands + Arrivals(windows, n);
  }

  /**
   * Kill drains immediately: a kill landing while command `n - 1` evaluates,
   * before, between or after that window's submissions, stops the drain before
   * any further command, and the reset drops whatever is still queued
   * (including those submissions) and clears every flag.
   */
  lemma KillStopsDrain(r: Run, windows: seq<seq<Interleaved>>, n: nat)
    requires r.isRunning && n > 0 && Live(r, windows, n) && Interrupts(At(windows, n - 1, [])) > 0
    ensures !Live(r, windows, n + 1)
    ensures var p := Cleared(Rounds(r, windows, n));
      p.commands == [] && !p.startFlag && !p.killFlag && !p.isRunning
  {
    RoundsFlags(r, windows, n);
  }

  /** A cooperative kill of an idle worker changes nothing. */
  lemma KillIdle(r: Run)
    requires !r.isRunning
    ensures Killed(r, false) == r
  {
  }

  /** A cooperative kill of a running worker raises only the kill flag and calls the break hook once. */
  lemma KillRunning(r: Run)
    requires r.isRunning
    ensures Killed(r, false) == r.(killFlag := true, breaks := r.breaks + 1)
  {
  }

  /**
   * atlastKill(false) as written takes no mutex: its test of isRunning can
   * come before the worker's resetAtlastRun and its write of the kill flag
   * after it.
   */
  function KilledAcrossReset(r: Run): Run
  {
    var c := Cleared(r);
    if r.isRunning then c.(killFlag := true, breaks := c.breaks + 1) else c
  }

  /**
   * That interleaving leaves the kill flag raised on an idle worker. The next
   * command submitted is echoed and starts an activation, which stops before
   * evaluating anything, and its reset drops the command.
   */
  lemma StaleKillDropsCommand(r: Run, cmd: string, windows: seq<seq<Interleaved>>)
    requires r.isRunning
    ensures !Inv(KilledAcrossReset(r))
    ensures var p := Started(Submitted(KilledAcrossReset(r), cmd));
      p.commands == [cmd] && p.isRunning && p.killFlag &&
      Stopped(p) && !Live(p, windows, 1) &&
      Cleared(p).commands == [] && Cleared(p).evaluated == r.evaluated &&
      Echoes(Cleared(p).out) == Echoes(r.out) + [EchoCommand(cmd)]
  {
    SubmittedAllQueue(KilledAcrossReset(r), [cmd]);
  }

  /**
   * With the kill's test and write under the mutex, the kill comes wholly
   * before or after the reset; either way the worker is left idle with the
   * kill flag clear, and the next command submitted is evaluated.
   */
  lemma LockedKillNoStale(r: Run, cmd: string)
    ensures var q := Cleared(Killed(r, false)); Inv(q) && !q.killFlag
    ensures Killed(Cleared(r), false) == Cleared(r)
    ensures var p := Started(Submitted(Cleared(Killed(r, false)), cmd));
      Live(p, [], 1) && Rounds(p, [], 1).evaluated == r.evaluated + [cmd]
  {
    var p := Started(Submitted(Cleared(Killed(r, false)), cmd));
    assert p.commands == [cmd] && !p.killFlag;
    assert Rounds(p, [], 0) == p;
  }

  /** With a task handle, a restart leaves exactly `quit` queued with a start requested. */
  lemma RestartClean(r: Run)
    requires r.task
    ensures var p := Killed(r, true);
      p.commands == [Quit] && p.startFlag && !p.killFlag && !p.isRunning &&
      p.task && p.spawned == r.spawned + 1
    ensures Submitted(Killed(r, true), "1 1 +").commands == [Quit, "1 1 +"]
  {
  }

  /** Without a task handle, a restart reports the error and resets nothing. */
  lemma RestartWithoutTask(r: Run)
    requires !r.task
    ensures var p := Killed(r, true);
      p.commands == r.commands && p.startFlag == r.startFlag && p.isRunning == r.isRunning &&
      p.spawned == r.spawned && p.out == Broken(r).out + [NoTaskHandle]
  {
  }

  /** atlastInit queues the four bootstrap commands, in order, behind anything queued. */
  lemma BootQueuesScript(r: Run)
    ensures var p := Booted(r);
      p.commands == r.commands + Bootstrap && |Bootstrap| == 4 && p.startFlag && p.task &&
      p.commands[|r.commands|] == "file startupfile" &&
      p.commands[|r.commands| + 3] == "startupfile fclose"
  {
  }

  // ---------------------------------------------------------------- the shared record

  /** `rd` with the collaborators' observations, mutated in place. */
  class RunState {
    var commands: seq<string>
    var startFlag: bool
    var killFlag: bool
    var isRunning: bool
    var task: bool
    var spawned: nat
    var evaluated: seq<string>
    var breaks: nat
    var out: seq<Msg>

    function View(): Run
      reads this
    {
      Run(commands, startFlag, killFlag, isRunning, task, spawned, evaluated, breaks, out)
    }

    constructor ()
      ensures View() == Initial()
    {
      commands, startFlag, killFlag, isRunning := [], false, false, false;
      task, spawned, evaluated, breaks, out := false, 0, [], 0, [];
    }

    /** atlastCommand. */
    method Command(cmd: string)
      modifies this
      ensures View() == Submitted(old(View()), cmd)
    {
      out := out + [Echo(EchoCommand(cmd))];
      out := out + [QueueDebug(|commands|, startFlag, killFlag, isRunning)];
      commands := commands + [cmd];
      if !isRunning {
        startFlag := true;
      }
    }

    /** The producers' atlastCommand calls that land while the mutex is released. */
    method CommandEach(cmds: seq<string>)
      modifies this
      ensures View() == SubmittedAll(old(View()), cmds)
    {
      for j := 0 to |cmds|
        invariant View() == SubmittedAll(old(View()), cmds[..j])
      {
        assert cmds[..j + 1][..j] == cmds[..j];
        Command(cmds[j]);
      }
      assert cmds[..|cmds|] == cmds;
    }

    /** startAtlastRun: true iff a start was requested; then the drain begins. */
    method StartRun() returns (started: bool)
      modifies this
      ensures started == old(startFlag)
      ensures View() == Started(old(View()))
    {
      if startFlag {
        startFlag := false;
        isRunning := true;
        return true;
      } else {
        return false;
      }
    }

    /** resetAtlastRun. */
    method ResetRun()
      modifies this
      ensures View() == Cleared(old(View()))
    {
      if commands != [] {
        commands := [];
      }
      startFlag := false;
      killFlag := false;
      isRunning := false;
    }

    /** atlastKill(restartTask): the cooperative kill, then the restart if requested. */
    method Kill(restartTask: bool)
      modifies this
      ensures View() == Killed(old(View()), restartTask)
    {
      if isRunning {
        killFlag := true;
        breaks := breaks + 1;
      }
      if restartTask {
        if !task {
          out := out + [NoTaskHandle];
          return;
        }
        ResetRun();
        spawned := spawned + 1;
        commands := commands + [Quit];
        startFlag := true;
      }
    }

    /** atlastInit: the evaluator set-up is opaque; create the task and queue the script. */
    method Init()
      modifies this
      ensures View() == Booted(old(View()))
    {
      task := true;
      spawned := spawned + 1;
      commands := commands + [Bootstrap[0]];
      commands := commands + [Bootstrap[1]];
      commands := commands + [Bootstrap[2]];
      commands := commands + [Bootstrap[3]];
      startFlag := true;
    }

    /**
     * The drain loop of atlastInterpreterLoop. `windows[i]` is what the other
     * tasks do, in order, while the i-th command evaluates. Returns the number
     * of rounds run.
     */
    method Drain(windows: seq<seq<Interleaved>>) returns (rounds: nat)
      modifies this
      ensures Live(old(View()), windows, rounds)
      ensures View() == Rounds(old(View()), windows, rounds)
      ensures Stopped(View())
    {
      ghost var v0 := View();
      rounds := 0;
      while commands != []
        invariant Live(v0, windows, rounds)
        invariant View() == Rounds(v0, windows, rounds)
        decreases (if rounds < |windows| then |windows| - rounds else 0), |commands|
      {
        if killFlag {
          break;
        }
        DrainRound(At(windows, rounds, []));
        rounds := rounds + 1;
      }
    }

    /** The other tasks' atlastCommand and atlastKill(false) calls of one window, in order. */
    method Interleave(w: seq<Interleaved>)
      modifies this
      ensures View() == Window(old(View()), w)
    {
      for j := 0 to |w|
        invariant View() == Window(old(View()), w[..j])
      {
        assert w[..j + 1][..j] == w[..j];
        match w[j]
        case Submit(c) => Command(c);
        case Interrupt => Kill(false);
      }
      assert w[..|w|] == w;
    }

    /**
     * The body of the drain loop, run with a non-empty queue: evaluate the front
     * (the mutex is released meanwhile, so the window `w` lands), then pop it
     * and print "ok".
     */
    method DrainRound(w: seq<Interleaved>)
      requires commands != []
      modifies this
      ensures View() == Round(old(View()), w)
    {
      var command := commands[0];
      // atl_eval(command), with the mutex released
      evaluated := evaluated + [command];
      ghost var e := View();
      Interleave(w);
      WindowEffect(e, w);
      assert commands[0] == command;
      commands := commands[1..];
      out := out + [Ok];
    }

    /**
     * One pass of the interpreter task's outer loop: poll the start flag and,
     * if it was set, drain and reset.
     */
    method InterpreterStep(windows: seq<seq<Interleaved>>) returns (started: bool, rounds: nat)
      modifies this
      ensures started == old(startFlag)
      ensures !started ==> View() == old(View())
      ensures started ==> Live(Started(old(View())), windows, rounds)
      ensures started ==> View() == Cleared(Rounds(Started(old(View())), windows, rounds))
      ensures started ==> commands == [] && !startFlag && !killFlag && !isRunning
      ensures started && Inv(old(View())) && (forall k :: 0 <= k < rounds ==> Interrupts(At(windows, k, [])) == 0) ==>
        evaluated == old(evaluated) + old(commands) + Arrivals(windows, rounds)
    {
      rounds := 0;
      started := StartRun();
      if !started {
        return;
      }
      ghost var s := View();
      rounds := Drain(windows);
      ghost var p := View();
      ResetRun();
      if Inv(old(View())) && (forall k :: 0 <= k < rounds ==> Interrupts(At(windows, k, [])) == 0) {
        DrainEvaluatesAll(old(View()), windows, rounds);
      }
    }
  }
}
