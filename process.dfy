/**
 * `tlib::process` (include/process.hpp): a child process with a stream on each pipe end and a
 * cache of what the parent last learned about it. `_alive`, `_status` and `_signal` are updated
 * only by `__wait`, from waitpid's answers; `kill` and the destructor go through it.
 */
module Process {
  import opened Results
  import opened Os
  import opened FdStream
  import opened Glibc
  import opened Spawn

  /** An `int` member that may never have been written. */
  datatype Cell = Unset | Value(v: int)

  /** The lifecycle members `_pid`, `_alive`, `_status` and `_signal`. */
  datatype Life = Life(pid: int, alive: bool, status: Cell, signal: Cell)

  /** The lifecycle members together with the log of the kernel the process calls. */
  datatype Trace = Trace(life: Life, log: seq<Event>)

  /** The status word __wait inspects: what waitpid stored, or, when it returned -1, what the unwritten variable held. */
  function Examined(reply: WaitReply): Status
    requires !reply.NoChange?
  {
    match reply
    case Reaped(st) => st
    case WaitFailed(garbage) => garbage
  }

  /** __wait calls waitpid and gets an answer other than 0. */
  predicate Terminates(env: Env, tr: Trace) {
    tr.life.alive && !env.wait(tr.log).NoChange?
  }

  /**
   * __wait(options): nothing when the process is known dead; otherwise one waitpid, and unless it
   * answers 0 the process is dead from then on, with `_status` set when the examined word says
   * it exited and `_signal` set when it says it was killed by a signal.
   */
  function WaitSpec(env: Env, tr: Trace, options: int): (r: Trace)
    ensures r.life.pid == tr.life.pid
    ensures !tr.life.alive ==> r == tr
    ensures tr.life.alive ==> r.log == tr.log + [WaitpidCall(tr.life.pid, options)]
    ensures r.life.alive <==> tr.life.alive && env.wait(tr.log).NoChange?
    ensures r.life.alive ==> r.life == tr.life
    ensures Terminates(env, tr) && Examined(env.wait(tr.log)).Exited? ==>
      r.life.status == Value(Examined(env.wait(tr.log)).code)
    ensures !(Terminates(env, tr) && Examined(env.wait(tr.log)).Exited?) ==> r.life.status == tr.life.status
    ensures Terminates(env, tr) && Examined(env.wait(tr.log)).Signaled? ==>
      r.life.signal == Value(Examined(env.wait(tr.log)).sig)
    ensures !(Terminates(env, tr) && Examined(env.wait(tr.log)).Signaled?) ==> r.life.signal == tr.life.signal
  {
    if !tr.life.alive then tr
    else
      var reply := env.wait(tr.log);
      var log := tr.log + [WaitpidCall(tr.life.pid, options)];
      if reply.NoChange? then Trace(tr.life, log)
      else
        var st := Examined(reply);
        var dead := tr.life.(alive := false);
        var withStatus := if st.Exited? then dead.(status := Value(st.code)) else dead;
        var withSignal := if st.Signaled? then withStatus.(signal := Value(st.sig)) else withStatus;
        Trace(withSignal, log)
  }

  /**
   * kill(sig, w): the signal is sent only when the non-blocking probe finds the process alive,
   * and a blocking wait follows only then and only when `w`.
   */
  function KillSpec(env: Env, tr: Trace, sig: int, w: bool): (r: Trace)
    ensures r.life.pid == tr.life.pid
    ensures !tr.life.alive ==> r == tr
    ensures r.life.alive ==> tr.life.alive
    ensures !WaitSpec(env, tr, WNOHANG).life.alive ==> r == WaitSpec(env, tr, WNOHANG)
    ensures WaitSpec(env, tr, WNOHANG).life.alive ==>
      && |r.log| == |tr.log| + (if w then 3 else 2)
      && r.log[|tr.log|] == WaitpidCall(tr.life.pid, WNOHANG)
      && r.log[|tr.log| + 1] == KillCall(tr.life.pid, sig)
      && (w ==> r.log[|tr.log| + 2] == WaitpidCall(tr.life.pid, 0))
    ensures !w ==> r.life == WaitSpec(env, tr, WNOHANG).life
    ensures WaitSpec(env, tr, WNOHANG).life.alive && w ==>
      r == WaitSpec(env, Trace(tr.life, tr.log + [WaitpidCall(tr.life.pid, WNOHANG)] + [KillCall(tr.life.pid, sig)]), 0)
    ensures |r.log| >= |tr.log| && r.log[..|tr.log|] == tr.log
  {
    var probe := WaitSpec(env, tr, WNOHANG);
    if !probe.life.alive then probe
    else
      var sent := Trace(probe.life, probe.log + [KillCall(tr.life.pid, sig)]);
      if w then WaitSpec(env, sent, 0) else sent
  }

  /** The calls a user can make on a spawned process that advance its lifecycle. */
  datatype Op = IsAliveOp | WaitOp | KillOp(sig: int, w: bool)

  function Step(env: Env, tr: Trace, op: Op): Trace {
    match op
    case IsAliveOp => WaitSpec(env, tr, WNOHANG)
    case WaitOp => WaitSpec(env, tr, 0)
    case KillOp(sig, w) => KillSpec(env, tr, sig, w)
  }

  function Run(env: Env, tr: Trace, ops: seq<Op>): Trace
    decreases |ops|
  {
    if ops == [] then tr else Run(env, Step(env, tr, ops[0]), ops[1..])
  }

  /** Once known dead, a process stays as it is: no further waitpid or kill, and `_status` and `_signal` are kept. */
  lemma {:induction false} DeadProcessIsInert(env: Env, tr: Trace, ops: seq<Op>)
    requires !tr.life.alive
    ensures Run(env, tr, ops) == tr
    decreases |ops|
  {
    if ops != [] {
      DeadProcessIsInert(env, Step(env, tr, ops[0]), ops[1..]);
    }
  }

  /** No sequence of calls brings a dead process back, or changes its pid. */
  lemma {:induction false} NeverRevives(env: Env, tr: Trace, ops: seq<Op>)
    ensures Run(env, tr, ops).life.alive ==> tr.life.alive
    ensures Run(env, tr, ops).life.pid == tr.life.pid
    decreases |ops|
  {
    if ops != [] {
      NeverRevives(env, Step(env, tr, ops[0]), ops[1..]);
    }
  }

  /**
   * Relative to the values `status0` and `signal0` the members had when the process was spawned:
   * nothing is recorded while it is alive, and at most one of the two is ever recorded.
   */
  predicate AtMostOneOutcome(l: Life, status0: Cell, signal0: Cell) {
    && (l.alive ==> l.status == status0 && l.signal == signal0)
    && (l.status == status0 || l.signal == signal0)
  }

  /** What ssignal() reports for a written `_signal`: no name for a negative value, otherwise the signal. */
  function SignalName(signal: Cell): Option<int>
    requires signal.Value?
  {
    if signal.v < 0 then None else Some(signal.v)
  }

  /** `_signal` holds the -1 it starts with, or a signal number __wait recorded. */
  predicate SignalUnsetOrRecorded(signal: Cell) {
    signal == Value(-1) || (signal.Value? && 0 < signal.v < 127)
  }

  /**
   * After the variadic constructor, ssignal() names a signal exactly when __wait recorded one:
   * the -1 it starts with yields no name, and every recorded signal number is positive.
   */
  lemma {:induction false} SignalNamedIffRecorded(env: Env, tr: Trace, ops: seq<Op>)
    requires SignalUnsetOrRecorded(tr.life.signal)
    ensures SignalUnsetOrRecorded(Run(env, tr, ops).life.signal)
    ensures SignalName(Run(env, tr, ops).life.signal).None? <==> Run(env, tr, ops).life.signal == Value(-1)
    ensures SignalName(Run(env, tr, ops).life.signal).Some? ==> 0 < SignalName(Run(env, tr, ops).life.signal).value < 127
    decreases |ops|
  {
    if ops != [] {
      SignalNamedIffRecorded(env, Step(env, tr, ops[0]), ops[1..]);
    }
  }

  lemma {:induction false} OutcomeRecordedOnce(env: Env, tr: Trace, ops: seq<Op>, status0: Cell, signal0: Cell)
    requires AtMostOneOutcome(tr.life, status0, signal0)
    ensures AtMostOneOutcome(Run(env, tr, ops).life, status0, signal0)
    decreases |ops|
  {
    if ops != [] {
      OutcomeRecordedOnce(env, Step(env, tr, ops[0]), ops[1..], status0, signal0);
    }
  }

  class Process {
    const inp: IFdStream       // _in
    const out: OFdStream       // _out
    var pid: int               // _pid
    var alive: bool            // _alive
    var status: Cell           // _status
    var signal: Cell           // _signal
    var waitOnKill: bool       // _wait_on_kill
    var noStdioRedirect: bool  // _no_stdio_redirect

    function State(): Life reads this { Life(pid, alive, status, signal) }

    /** process(): no child, default streams, `_status` and `_signal` unwritten. */
    constructor ()
      ensures fresh(inp) && fresh(out)
      ensures inp.buf == Unopened && inp.shadowFd == -1 && !inp.failed
      ensures out.buf == Unopened && out.shadowFd == -1 && !out.failed
      ensures pid == -1 && !alive && status == Unset && signal == Unset
      ensures waitOnKill && !noStdioRedirect
    {
      inp := new IFdStream();
      out := new OFdStream();
      pid := -1;
      alive := false;
      status := Unset;
      signal := Unset;
      waitOnKill := true;
      noStdioRedirect := false;
    }

    /**
     * The move constructor: default streams move-assigned from the source's, every other member
     * copied. The source keeps its pid and `_alive`, so its own destructor still kills the child.
     */
    constructor Move(src: Process, k: Kernel)
      modifies src.inp, src.out, k
      ensures fresh(inp) && fresh(out)
      ensures inp.buf == old(src.inp.buf) && inp.shadowFd == old(src.inp.shadowFd) && inp.failed == old(src.inp.failed)
      ensures out.buf == old(src.out.buf) && out.shadowFd == old(src.out.shadowFd) && out.failed == old(src.out.failed)
      ensures src.inp.buf == Unopened && src.inp.shadowFd == old(src.inp.shadowFd) && !src.inp.failed
      ensures src.out.buf == Unopened && src.out.shadowFd == old(src.out.shadowFd) && !src.out.failed
      ensures State() == src.State() && waitOnKill == src.waitOnKill && noStdioRedirect == src.noStdioRedirect
      ensures k.fds == old(k.fds) && k.log == old(k.log) && k.pipes == old(k.pipes) && k.deathSignal == old(k.deathSignal)
    {
      var i := new IFdStream();
      var o := new OFdStream();
      i.MoveAssign(src.inp, k);
      o.MoveAssign(src.out, k);
      inp := i;
      out := o;
      pid := src.pid;
      alive := src.alive;
      status := src.status;
      signal := src.signal;
      waitOnKill := src.waitOnKill;
      noStdioRedirect := src.noStdioRedirect;
    }

    /**
     * process(initializer_list): a default process, then spawn. When spawn throws, the exception
     * leaves the constructor and there is no process (and no destructor runs).
     */
    static method FromList(k: Kernel, args: seq<string>) returns (r: Result<Process>, launch: LaunchResult)
      modifies k
      ensures k.deathSignal == old(k.deathSignal)
      ensures ParentState(k.fds, k.pipes, k.log) == AfterLaunch(k.env, old(k.fds), old(k.pipes), old(k.log))
      ensures Reported(k.env, k.self, old(k.fds), old(k.pipes), old(k.log), args, true, launch)
      ensures r.Err? <==> launch.Failed?
      ensures r.Err? ==> r.error == launch.error
      ensures r.Ok? ==> fresh(r.value) && fresh(r.value.inp) && fresh(r.value.out)
      ensures r.Ok? ==> r.value.State() == Life(launch.pid, true, Unset, Unset)
      ensures r.Ok? ==> r.value.waitOnKill && !r.value.noStdioRedirect
      ensures r.Ok? ==> r.value.inp.buf == FileBuf(launch.readFd, true) && r.value.inp.shadowFd == launch.readFd
      ensures r.Ok? ==> !r.value.inp.failed && !r.value.out.failed
      ensures r.Ok? ==> r.value.out.buf == FileBuf(launch.writeFd, true) && r.value.out.shadowFd == launch.writeFd
    {
      var p := new Process();
      var s;
      s, launch := p.Spawn(k, args);
      if s.Fail? {
        return Err(s.error), launch;
      }
      r := Ok(p);
    }

    /** process(Args...): like the list constructor, but `_status` and `_signal` start at -1. */
    static method FromArgs(k: Kernel, args: seq<string>) returns (r: Result<Process>, launch: LaunchResult)
      modifies k
      ensures k.deathSignal == old(k.deathSignal)
      ensures ParentState(k.fds, k.pipes, k.log) == AfterLaunch(k.env, old(k.fds), old(k.pipes), old(k.log))
      ensures Reported(k.env, k.self, old(k.fds), old(k.pipes), old(k.log), args, true, launch)
      ensures r.Err? <==> launch.Failed?
      ensures r.Err? ==> r.error == launch.error
      ensures r.Ok? ==> fresh(r.value) && fresh(r.value.inp) && fresh(r.value.out)
      ensures r.Ok? ==> r.value.State() == Life(launch.pid, true, Value(-1), Value(-1))
      ensures r.Ok? ==> r.value.waitOnKill && !r.value.noStdioRedirect
      ensures r.Ok? ==> r.value.inp.buf == FileBuf(launch.readFd, true) && r.value.inp.shadowFd == launch.readFd
      ensures r.Ok? ==> !r.value.inp.failed && !r.value.out.failed
      ensures r.Ok? ==> r.value.out.buf == FileBuf(launch.writeFd, true) && r.value.out.shadowFd == launch.writeFd
    {
      var p := new Process();
      p.status := Value(-1);
      p.signal := Value(-1);
      var s;
      s, launch := p.Spawn(k, args);
      if s.Fail? {
        return Err(s.error), launch;
      }
      r := Ok(p);
    }

    /**
     * spawn(args): the launch protocol, redirecting unless disabled; then `_alive`, `_pid`, and the
     * streams bound to fd_r[0] and fd_w[1]. On an exception nothing of the process changes.
     */
    method Spawn(k: Kernel, args: seq<string>) returns (r: Outcome, launch: LaunchResult)
      modifies this, inp, out, k
      ensures waitOnKill == old(waitOnKill) && noStdioRedirect == old(noStdioRedirect)
      ensures k.deathSignal == old(k.deathSignal)
      ensures r.Fail? <==> launch.Failed?
      ensures r.Fail? ==> r.error == launch.error
      ensures r.Fail? ==>
        && State() == old(State()) && ParentState(k.fds, k.pipes, k.log) == AfterLaunch(k.env, old(k.fds), old(k.pipes), old(k.log))
        && inp.buf == old(inp.buf) && inp.shadowFd == old(inp.shadowFd) && inp.failed == old(inp.failed)
        && out.buf == old(out.buf) && out.shadowFd == old(out.shadowFd) && out.failed == old(out.failed)
      ensures r.Pass? ==>
        var after := AfterLaunch(k.env, old(k.fds), old(k.pipes), old(k.log));
        && State() == Life(launch.pid, true, old(status), old(signal)) && launch.pid > 0
        && k.pipes == after.pipes
        && Rebound(inp, out, launch.readFd, launch.writeFd, old(inp.buf), old(out.buf), after.fds, after.log, k.fds, k.log)
        && launch.readFd in after.fds && after.fds[launch.readFd] == PipeEnd(old(k.pipes), ReadEnd)
        && launch.writeFd in after.fds && after.fds[launch.writeFd] == PipeEnd(old(k.pipes) + 1, WriteEnd)
      ensures Reported(k.env, k.self, old(k.fds), old(k.pipes), old(k.log), args, !old(noStdioRedirect), launch)
    {
      launch := Launch(k, args, !noStdioRedirect);
      if launch.Failed? {
        return Fail(launch.error), launch;
      }
      Adopt(k, launch.pid, launch.readFd, launch.writeFd);
      r := Pass;
    }

    /** The parent's side after a successful fork: `_alive`, `_pid`, then the two streams. */
    method Adopt(k: Kernel, child: int, readFd: int, writeFd: int)
      modifies this, inp, out, k
      ensures State() == Life(child, true, old(status), old(signal))
      ensures waitOnKill == old(waitOnKill) && noStdioRedirect == old(noStdioRedirect)
      ensures Rebound(inp, out, readFd, writeFd, old(inp.buf), old(out.buf), old(k.fds), old(k.log), k.fds, k.log)
      ensures k.pipes == old(k.pipes) && k.deathSignal == old(k.deathSignal)
    {
      alive := true;
      pid := child;
      Rebind(inp, out, k, readFd, writeFd);
    }

    /** __wait(options). */
    method WaitInternal(k: Kernel, options: int)
      modifies this, k
      ensures Trace(State(), k.log) == WaitSpec(k.env, Trace(old(State()), old(k.log)), options)
      ensures waitOnKill == old(waitOnKill) && noStdioRedirect == old(noStdioRedirect)
      ensures k.fds == old(k.fds) && k.pipes == old(k.pipes) && k.deathSignal == old(k.deathSignal)
    {
      if !alive {
        return;
      }
      var reply := k.Waitpid(pid, options);
      if reply.NoChange? {
        return;
      }
      alive := false;
      var st := Examined(reply);
      if st.Exited? {
        status := Value(st.code);
      }
      if st.Signaled? {
        signal := Value(st.sig);
      }
    }

    /** is_alive(): a non-blocking __wait, then the cached flag. */
    method IsAlive(k: Kernel) returns (b: bool)
      modifies this, k
      ensures Trace(State(), k.log) == WaitSpec(k.env, Trace(old(State()), old(k.log)), WNOHANG)
      ensures b == alive
      ensures waitOnKill == old(waitOnKill) && noStdioRedirect == old(noStdioRedirect)
      ensures k.fds == old(k.fds) && k.pipes == old(k.pipes) && k.deathSignal == old(k.deathSignal)
    {
      WaitInternal(k, WNOHANG);
      b := alive;
    }

    /** wait(): a blocking __wait. */
    method Wait(k: Kernel)
      modifies this, k
      ensures Trace(State(), k.log) == WaitSpec(k.env, Trace(old(State()), old(k.log)), 0)
      ensures waitOnKill == old(waitOnKill) && noStdioRedirect == old(noStdioRedirect)
      ensures k.fds == old(k.fds) && k.pipes == old(k.pipes) && k.deathSignal == old(k.deathSignal)
    {
      WaitInternal(k, 0);
    }

    /** kill(sig, w). The result of ::kill is ignored. */
    method Kill(k: Kernel, sig: int, w: bool)
      modifies this, k
      ensures Trace(State(), k.log) == KillSpec(k.env, Trace(old(State()), old(k.log)), sig, w)
      ensures waitOnKill == old(waitOnKill) && noStdioRedirect == old(noStdioRedirect)
      ensures k.fds == old(k.fds) && k.pipes == old(k.pipes) && k.deathSignal == old(k.deathSignal)
    {
      var a := IsAlive(k);
      if !a {
        return;
      }
      var _ := k.Kill(pid, sig);
      if w {
        Wait(k);
      }
    }

    /** kill(sig), and kill() with sig = SIGTERM: waits according to `_wait_on_kill`. */
    method KillDefault(k: Kernel, sig: int)
      modifies this, k
      ensures Trace(State(), k.log) == KillSpec(k.env, Trace(old(State()), old(k.log)), sig, old(waitOnKill))
      ensures waitOnKill == old(waitOnKill) && noStdioRedirect == old(noStdioRedirect)
      ensures k.fds == old(k.fds) && k.pipes == old(k.pipes) && k.deathSignal == old(k.deathSignal)
    {
      Kill(k, sig, waitOnKill);
    }

    /** ~process(): kill(), then the members' destructors, `_out` before `_in`. */
    method Destroy(k: Kernel)
      modifies this, inp, out, k
      ensures var killed := KillSpec(k.env, Trace(old(State()), old(k.log)), SIGTERM, old(waitOnKill));
        && State() == killed.life
        && k.log == ReleasedLog(ReleasedLog(killed.log, old(out.buf)), old(inp.buf))
        && k.fds == Released(Released(old(k.fds), old(out.buf)), old(inp.buf))
      ensures !inp.buf.open && !out.buf.open
      ensures k.pipes == old(k.pipes) && k.deathSignal == old(k.deathSignal)
    {
      KillDefault(k, SIGTERM);
      out.Destroy(k);
      inp.Destroy(k);
    }

    /** status(): the member as it is, possibly never written. */
    function Status(): Cell reads this { status }

    /** signal(): the member as it is, possibly never written. */
    function Signal(): Cell reads this { signal }

    /**
     * ssignal(): no name for a negative `_signal`; otherwise strsignal(_signal), represented by the
     * signal number. Reading `_signal` before it was ever written is undefined, hence the requirement.
     */
    function SSignal(): Option<int>
      requires signal.Value?
      reads this
    {
      SignalName(signal)
    }

    method SetWaitOnKill(flag: bool)
      modifies this
      ensures waitOnKill == flag
      ensures State() == old(State()) && noStdioRedirect == old(noStdioRedirect)
    {
      waitOnKill := flag;
    }

    method DisableStdioRedirection(flag: bool)
      modifies this
      ensures noStdioRedirect == flag
      ensures State() == old(State()) && waitOnKill == old(waitOnKill)
    {
      noStdioRedirect := flag;
    }
  }
}
