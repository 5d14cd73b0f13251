/** The deferred-formatting logger (`logger` in lib/include/log.h) as a
    sequential state machine: producers push captured entries onto a FIFO
    queue; one worker repeatedly pops the front entry, renders it and writes
    the line to standard output; `terminate` stops the worker after it has
    drained the queue. Threads, the mutex and the condition variable are
    replaced by single steps that a scheduler may interleave freely. */
module AsyncLogger {
  import opened Wrappers
  import opened LogLevels
  import opened LogEntries

  /** Where the background thread is: inside its loop, returned from it, or
      killed by an exception that escaped it (which ends the process). */
  datatype Worker = Looping | Exited | Aborted

  /** The logger's state: the queue, the `running` flag, the lines written
      to standard output (each followed by a newline) and the worker. */
  datatype State = State(queue: seq<Entry>, running: bool, output: seq<string>, worker: Worker)

  /** Between public operations the worker loops exactly while the logger
      runs, and has returned once it has been terminated. */
  predicate Valid(s: State)
  {
    (s.running ==> s.worker == Looping) && (!s.running ==> s.worker == Exited)
  }

  /** Right after construction: running, nothing queued, nothing written. */
  const Initial: State := State([], true, [], Looping)

  /** The lines written for a sequence of entries, in order. */
  function Lines(render: Entry -> string, q: seq<Entry>): (ls: seq<string>)
    ensures |ls| == |q|
  {
    if q == [] then [] else [render(q[0])] + Lines(render, q[1..])
  }

  lemma {:induction false} LinesAppend(render: Entry -> string, a: seq<Entry>, b: seq<Entry>)
    ensures Lines(render, a + b) == Lines(render, a) + Lines(render, b)
    decreases |a|
  {
    if a != [] {
      assert (a + b)[0] == a[0] && (a + b)[1..] == a[1..] + b;
      LinesAppend(render, a[1..], b);
      assert Lines(render, a + b) == [render(a[0])] + Lines(render, a[1..] + b);
    } else {
      assert a + b == b;
    }
  }

  /** One pass through the worker's loop. With an empty queue it exits if
      the logger no longer runs and otherwise waits (at most 100 ms) and
      changes nothing; with a non-empty queue it removes exactly the front
      entry and writes exactly that entry's line. */
  function Step(render: Entry -> string, s: State): (t: State)
    requires s.worker == Looping
    ensures t.running == s.running
    ensures t.worker == Exited <==> s.queue == [] && !s.running
    ensures t.worker != Exited ==> t.worker == Looping
    ensures s.queue == [] && s.running ==> t == s
    ensures s.queue == [] ==> t.queue == [] && t.output == s.output
    ensures s.queue != [] ==> t.queue == s.queue[1..] && t.output == s.output + [render(s.queue[0])]
  {
    if s.queue == [] then
      if !s.running then s.(worker := Exited) else s
    else
      s.(queue := s.queue[1..], output := s.output + [render(s.queue[0])])
  }

  /** The renderer of a worker that survives formatting errors. */
  function LineOf(printf: Printf): Entry -> string
  {
    e => Line(printf, e)
  }

  /** One pass through the loop as the code is written: a formatting error
      in `to_string` is not caught, so it leaves the thread function and the
      process is terminated, after the entry was already taken off the queue. */
  function StepAsWritten(printf: Printf, s: State): (t: State)
    requires s.worker == Looping
    ensures s.queue != [] && Render(printf, s.queue[0]).Failure? ==>
              t.worker == Aborted && t.running == s.running && t.output == s.output && t.queue == s.queue[1..]
    ensures !(s.queue != [] && Render(printf, s.queue[0]).Failure?) ==> t == Step(LineOf(printf), s)
  {
    if s.queue == [] then
      if !s.running then s.(worker := Exited) else s
    else
      match Render(printf, s.queue[0])
      case Success(r) => s.(queue := s.queue[1..], output := s.output + [r])
      case Failure(_) => s.(queue := s.queue[1..], worker := Aborted)
  }

  /** `join`: the worker keeps looping until it leaves its loop. */
  function Join(render: Entry -> string, s: State): (t: State)
    requires !s.running
    decreases |s.queue| + (if s.worker == Looping then 1 else 0)
  {
    if s.worker != Looping then s else Join(render, Step(render, s))
  }

  /** `terminate`: only a call that finds the logger running clears the flag
      and then waits for the worker to finish; any other call does nothing. */
  function TerminateSpec(render: Entry -> string, s: State): State
  {
    if s.running then Join(render, s.(running := false)) else s
  }

  /** `terminate` as written with `compare_exchange_weak`, which may fail even
      though `running` is true; the call then neither stops nor drains. */
  function TerminateAsWritten(render: Entry -> string, s: State, spuriousFailure: bool): (t: State)
    ensures spuriousFailure ==> t == s
    ensures !spuriousFailure ==> t == TerminateSpec(render, s)
  {
    if s.running && !spuriousFailure then Join(render, s.(running := false)) else s
  }

  /** Joining a stopped worker that is still looping drains the queue: the
      worker exits with nothing queued, having written every queued entry's
      line, in queue order, after what was already written. */
  lemma {:induction false} JoinDrains(render: Entry -> string, s: State)
    requires !s.running && s.worker == Looping
    ensures Join(render, s) == s.(queue := [], output := s.output + Lines(render, s.queue), worker := Exited)
    decreases |s.queue|
  {
    if s.queue != [] {
      var t := Step(render, s);
      assert Join(render, s) == Join(render, t);
      JoinDrains(render, t);
      assert Lines(render, s.queue) == [render(s.queue[0])] + Lines(render, t.queue);
    }
  }

  /** After `terminate` on a running logger the queue is empty, every entry
      queued before the call has been written in order, and the worker has
      exited; on a logger already terminated the call changes nothing. */
  lemma TerminateFlushes(render: Entry -> string, s: State)
    requires Valid(s)
    ensures var t := TerminateSpec(render, s);
      Valid(t) && !t.running &&
      (s.running ==> t.queue == [] && t.output == s.output + Lines(render, s.queue) && t.worker == Exited) &&
      (!s.running ==> t == s)
  {
    if s.running {
      JoinDrains(render, s.(running := false));
    }
  }

  /** A second `terminate` is a no-op. */
  lemma TerminateIdempotent(render: Entry -> string, s: State)
    requires Valid(s)
    ensures TerminateSpec(render, TerminateSpec(render, s)) == TerminateSpec(render, s)
  {
    TerminateFlushes(render, s);
  }

  /** What has been written when the process exits, as the code is written:
      `get_instance` creates the logger with `new` and nothing deletes it, so
      its destructor, and the `terminate` it would call, never runs; the
      worker dies with the process and the entries still queued are lost. */
  function ExitAsWritten(s: State): seq<string>
  {
    s.output
  }

  /** What has been written when the process exits if the destructor's
      `terminate` runs: a running logger first writes every queued entry. */
  function ExitIntended(render: Entry -> string, s: State): (written: seq<string>)
    requires Valid(s)
    ensures s.running ==> written == s.output + Lines(render, s.queue)
    ensures !s.running ==> written == s.output
  {
    TerminateFlushes(render, s);
    TerminateSpec(render, s).output
  }

  /** A program that returns from `main` without `LOG_TERMINATE` while
      entries are still queued loses exactly those entries' lines. */
  lemma ExitLosesQueued(render: Entry -> string, s: State)
    requires Valid(s) && s.running && s.queue != []
    ensures ExitIntended(render, s) == ExitAsWritten(s) + Lines(render, s.queue)
    ensures |ExitAsWritten(s)| < |ExitIntended(render, s)|
  {
  }

  /** What can happen to the logger, one event at a time: a producer pushes
      an entry, the worker runs one pass of its loop, or `terminate` is called. */
  datatype Event = Push(e: Entry) | Tick | Stop

  function Apply(render: Entry -> string, s: State, ev: Event): State
  {
    match ev
    case Push(e) => s.(queue := s.queue + [e])
    case Tick => if s.worker == Looping then Step(render, s) else s
    case Stop => TerminateSpec(render, s)
  }

  function Exec(render: Entry -> string, s: State, evs: seq<Event>): State
    decreases |evs|
  {
    if evs == [] then s else Exec(render, Apply(render, s, evs[0]), evs[1..])
  }

  /** The entries pushed by a sequence of events, in push order. */
  function Pushed(evs: seq<Event>): (q: seq<Entry>)
    ensures |q| <= |evs|
  {
    if evs == [] then []
    else (if evs[0].Push? then [evs[0].e] else []) + Pushed(evs[1..])
  }

  /** A worker pass or a `terminate` moves entries from the queue to the
      output without losing or reordering any. */
  lemma WorkerConserves(render: Entry -> string, s: State, ev: Event)
    requires !ev.Push?
    ensures var t := Apply(render, s, ev);
      t.output + Lines(render, t.queue) == s.output + Lines(render, s.queue)
  {
    var t := Apply(render, s, ev);
    if ev.Tick? && s.worker == Looping && s.queue != [] {
      assert Lines(render, s.queue) == [render(s.queue[0])] + Lines(render, t.queue);
    } else if ev.Stop? && s.running && s.worker == Looping {
      JoinDrains(render, s.(running := false));
    }
  }

  /** The same for any one event, with entries still to be pushed afterwards. */
  lemma ApplyConserves(render: Entry -> string, s: State, ev: Event, rest: seq<Entry>)
    ensures var t := Apply(render, s, ev);
      t.output + Lines(render, t.queue + rest)
        == s.output + Lines(render, s.queue + (if ev.Push? then [ev.e] else []) + rest)
  {
    var t := Apply(render, s, ev);
    if ev.Push? {
      assert t.output == s.output && t.queue + rest == s.queue + [ev.e] + rest;
    } else {
      calc {
        t.output + Lines(render, t.queue + rest);
        { LinesAppend(render, t.queue, rest); }
        t.output + Lines(render, t.queue) + Lines(render, rest);
        { WorkerConserves(render, s, ev); }
        s.output + Lines(render, s.queue) + Lines(render, rest);
        { LinesAppend(render, s.queue, rest); }
        s.output + Lines(render, s.queue + rest);
        { assert s.queue + [] + rest == s.queue + rest; }
        s.output + Lines(render, s.queue + [] + rest);
      }
    }
  }

  /** No entry is ever lost or reordered: whatever happens, the lines written
      followed by the lines of the entries still queued are the lines of the
      entries ever pushed, in push order. */
  lemma {:induction false} ExecConserves(render: Entry -> string, s: State, evs: seq<Event>)
    ensures var t := Exec(render, s, evs);
      t.output + Lines(render, t.queue) == s.output + Lines(render, s.queue + Pushed(evs))
    decreases |evs|
  {
    if evs != [] {
      var rest := Pushed(evs[1..]);
      ExecConserves(render, Apply(render, s, evs[0]), evs[1..]);
      ApplyConserves(render, s, evs[0], rest);
      assert Pushed(evs) == (if evs[0].Push? then [evs[0].e] else []) + rest;
      assert s.queue + Pushed(evs) == s.queue + (if evs[0].Push? then [evs[0].e] else []) + rest;
    } else {
      assert s.queue + Pushed(evs) == s.queue;
    }
  }

  /** Without a `terminate`, the logger keeps running and its worker looping. */
  lemma {:induction false} ExecKeepsRunning(render: Entry -> string, s: State, evs: seq<Event>)
    requires Valid(s) && s.running
    requires forall i :: 0 <= i < |evs| ==> !evs[i].Stop?
    ensures var t := Exec(render, s, evs); Valid(t) && t.running
    decreases |evs|
  {
    if evs != [] {
      ExecKeepsRunning(render, Apply(render, s, evs[0]), evs[1..]);
    }
  }

  /** Entries are written in the order they were pushed, and `terminate`
      loses none of them: after any pushes and worker passes, a `terminate`
      leaves an empty queue and exactly the lines of every entry queued or
      pushed before it, in push order. */
  lemma TerminateAfterTrace(render: Entry -> string, s: State, evs: seq<Event>)
    requires Valid(s) && s.running
    requires forall i :: 0 <= i < |evs| ==> !evs[i].Stop?
    ensures var t := TerminateSpec(render, Exec(render, s, evs));
      t.queue == [] && t.output == s.output + Lines(render, s.queue + Pushed(evs)) && t.worker == Exited
  {
    var u := Exec(render, s, evs);
    ExecKeepsRunning(render, s, evs);
    ExecConserves(render, s, evs);
    TerminateFlushes(render, u);
  }

  /** A formatting error kills the worker as the code is written: with a bad
      entry queued before a good one and `terminate` already called, the
      worker takes the bad entry and dies, and the good entry is never
      written. The corrected worker writes a line for both. */
  lemma FormatErrorStopsWorker()
    ensures var printf: Printf := (f: string, a: seq<Arg>) => if f == "%ls" then None else Some(f);
      var bad := Entry(Error, "%ls", "main.cpp", 7, [StrArg("x")]);
      var good := Entry(Info, "done", "main.cpp", 8, []);
      var s := State([bad, good], false, [], Looping);
      var t := StepAsWritten(printf, s);
      t.worker == Aborted && t.output == [] && t.queue == [good] &&
      Join(LineOf(printf), s).output == [Prefix(bad) + FormatErrorMessage, Prefix(good) + "done"]
  {
    var printf: Printf := (f: string, a: seq<Arg>) => if f == "%ls" then None else Some(f);
    var bad := Entry(Error, "%ls", "main.cpp", 7, [StrArg("x")]);
    var good := Entry(Info, "done", "main.cpp", 8, []);
    var s := State([bad, good], false, [], Looping);
    assert printf(bad.format, bad.args) == None;
    assert Render(printf, bad).Failure?;
    assert printf(good.format, good.args) == Some("done");
    assert FormatLogString(printf, good.format, good.args) == Success("done");
    JoinDrains(LineOf(printf), s);
    assert Lines(LineOf(printf), s.queue) == [Line(printf, bad), Line(printf, good)];
  }

  /** With `compare_exchange_weak`, a spurious failure leaves a running
      logger running with its queue unwritten, although `terminate` returned. */
  lemma WeakExchangeMaySkipDrain(render: Entry -> string, s: State)
    requires Valid(s) && s.running && s.queue != []
    ensures var t := TerminateAsWritten(render, s, true);
      t.running && t.queue == s.queue && t.output == s.output
    ensures TerminateSpec(render, s).queue == []
  {
    TerminateFlushes(render, s);
  }

  /** The logger object. The C library's formatter is fixed at construction. */
  class Logger {
    const printf: Printf
    var queue: seq<Entry>
    var running: bool
    var output: seq<string>
    var worker: Worker

    function Snapshot(): State
      reads this
    {
      State(queue, running, output, worker)
    }

    /** The constructor sets `running` and starts the worker. */
    constructor (printf: Printf)
      ensures this.printf == printf && Snapshot() == Initial
    {
      this.printf := printf;
      queue, running, output, worker := [], true, [], Looping;
    }

    /** `push_entry`: appends the entry at the back of the queue; the entries
        already queued and their order are unchanged. */
    method PushEntry(e: Entry)
      modifies this`queue
      ensures queue == old(queue) + [e]
    {
      queue := queue + [e];
    }

    /** `make_log_entry`, behind the `LOG` macros: captures level, format,
        file, line and arguments into an entry and pushes it. */
    method Log(level: LogLevel, file: string, line: nat, format: string, args: seq<Arg>)
      modifies this`queue
      ensures queue == old(queue) + [Entry(level, format, file, line, args)]
    {
      PushEntry(Entry(level, format, file, line, args));
    }

    /** One pass through the loop of `log_fn`, with a worker that survives
        formatting errors. */
    method Iterate()
      requires worker == Looping
      modifies this`queue, this`output, this`worker
      ensures Snapshot() == Step(LineOf(printf), old(Snapshot()))
    {
      var isRunning := running;
      if queue == [] {
        if !isRunning {
          worker := Exited;
        }
        // otherwise: wait on the condition variable for at most 100 ms, then loop
      } else {
        var e := queue[0];
        queue := queue[1..];
        output := output + [Line(printf, e)];
      }
    }

    /** `terminate`: the first call clears `running` and joins the worker;
        later calls do nothing. */
    method Terminate()
      requires Valid(Snapshot())
      modifies this
      ensures Valid(Snapshot())
      ensures Snapshot() == TerminateSpec(LineOf(printf), old(Snapshot()))
    {
      TerminateFlushes(LineOf(printf), Snapshot());
      if running {
        running := false;
        while worker == Looping
          invariant !running
          invariant Join(LineOf(printf), Snapshot()) == TerminateSpec(LineOf(printf), old(Snapshot()))
          decreases |queue| + (if worker == Looping then 1 else 0)
        {
          Iterate();
        }
      }
    }
  }
}
