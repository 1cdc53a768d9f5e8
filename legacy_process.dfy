/**
 * The older `tlib::process` (process.hpp): the same launch protocol, always redirecting the
 * child's standard input and output, but a lifecycle reduced to `_pid` and a cached `_alive`
 * that only `is_alive` updates. There is no `__wait`, no `_status` and no `_signal`.
 */
module LegacyProcess {
  import opened Results
  import opened Os
  import opened FdStream
  import opened Glibc
  import opened Spawn

  /** The lifecycle members `_pid` and `_alive`. */
  datatype Life = Life(pid: int, alive: bool)

  /** The lifecycle members together with the log of the kernel the process calls. */
  datatype Trace = Trace(life: Life, log: seq<Event>)

  /**
   * is_alive(): false without a call when `_alive` is already false; otherwise one non-blocking
   * waitpid, and `_alive` becomes "it answered 0". A reaped child and a failed call both count as dead.
   */
  function IsAliveSpec(env: Env, tr: Trace): (r: Trace)
    ensures r.life.pid == tr.life.pid
    ensures !tr.life.alive ==> r == tr
    ensures tr.life.alive ==> r.log == tr.log + [WaitpidCall(tr.life.pid, WNOHANG)]
    ensures r.life.alive <==> tr.life.alive && env.wait(tr.log).NoChange?
  {
    if !tr.life.alive then tr
    else Trace(tr.life.(alive := env.wait(tr.log).NoChange?), tr.log + [WaitpidCall(tr.life.pid, WNOHANG)])
  }

  /** wait(): a blocking waitpid on `_pid` whatever `_alive` says; its answer is dropped. */
  function WaitSpec(tr: Trace): (r: Trace)
    ensures r.life == tr.life
    ensures |r.log| == |tr.log| + 1 && r.log[..|tr.log|] == tr.log && r.log[|tr.log|] == WaitpidCall(tr.life.pid, 0)
  {
    Trace(tr.life, tr.log + [WaitpidCall(tr.life.pid, 0)])
  }

  /**
   * kill(sig, w): nothing after a probe that finds the process dead; otherwise the signal, and a
   * blocking wait when `w`. Only the probe touches `_alive`, so after a waited kill the process
   * is still cached as alive.
   */
  function KillSpec(env: Env, tr: Trace, sig: int, w: bool): (r: Trace)
    ensures r.life == IsAliveSpec(env, tr).life
    ensures !tr.life.alive ==> r == tr
    ensures !IsAliveSpec(env, tr).life.alive ==> r == IsAliveSpec(env, tr)
    ensures IsAliveSpec(env, tr).life.alive ==>
      && |r.log| == |tr.log| + (if w then 3 else 2)
      && r.log[|tr.log|] == WaitpidCall(tr.life.pid, WNOHANG)
      && r.log[|tr.log| + 1] == KillCall(tr.life.pid, sig)
      && (w ==> r.log[|tr.log| + 2] == WaitpidCall(tr.life.pid, 0))
    ensures |r.log| >= |tr.log| && r.log[..|tr.log|] == tr.log
  {
    var probe := IsAliveSpec(env, tr);
    if !probe.life.alive then probe
    else
      var sent := Trace(probe.life, probe.log + [KillCall(tr.life.pid, sig)]);
      if w then WaitSpec(sent) else sent
  }

  /** The calls a user can make on a spawned process. */
  datatype Op = IsAliveOp | WaitOp | KillOp(sig: int, w: bool)

  function Step(env: Env, tr: Trace, op: Op): Trace {
    match op
    case IsAliveOp => IsAliveSpec(env, tr)
    case WaitOp => WaitSpec(tr)
    case KillOp(sig, w) => KillSpec(env, tr, sig, w)
  }

  function Run(env: Env, tr: Trace, ops: seq<Op>): Trace
    decreases |ops|
  {
    if ops == [] then tr else Run(env, Step(env, tr, ops[0]), ops[1..])
  }

  /** The blocking waitpid calls that the `wait()` calls among `ops` make on `pid`. */
  function BlockingWaits(pid: int, ops: seq<Op>): seq<Event>
    decreases |ops|
  {
    if ops == [] then []
    else (if ops[0].WaitOp? then [WaitpidCall(pid, 0)] else []) + BlockingWaits(pid, ops[1..])
  }

  /**
   * Once `_alive` is false, is_alive and kill do nothing at all, and each wait() still issues its
   * blocking waitpid on the old pid.
   */
  lemma {:induction false} DeadProcessOnlyWaits(env: Env, tr: Trace, ops: seq<Op>)
    requires !tr.life.alive
    ensures Run(env, tr, ops) == Trace(tr.life, tr.log + BlockingWaits(tr.life.pid, ops))
    decreases |ops|
  {
    if ops != [] {
      var next := Step(env, tr, ops[0]);
      var head := if ops[0].WaitOp? then [WaitpidCall(tr.life.pid, 0)] else [];
      assert next == Trace(tr.life, tr.log + head);
      DeadProcessOnlyWaits(env, next, ops[1..]);
      assert tr.log + head + BlockingWaits(tr.life.pid, ops[1..]) == tr.log + BlockingWaits(tr.life.pid, ops);
    }
  }

  /** No sequence of calls brings a dead process back, or changes its pid. */
  lemma {:induction false} NeverRevives(env: Env, tr: Trace, ops: seq<Op>)
    ensures Run(env, tr, ops).life.alive ==> tr.life.alive
    ensures Run(env, tr, ops).life.pid == tr.life.pid
    decreases |ops|
  {
    if ops != [] {
      NeverRevives(env, Step(env, tr, ops[0]), ops[1..]);
    }
  }

  /**
   * wait() never updates the cache: a process that has been waited for, with no is_alive or kill
   * since, is still cached as alive, and only the next probe finds that out.
   */
  lemma {:induction false} WaitsKeepCachedLife(env: Env, tr: Trace, n: nat)
    ensures Run(env, tr, seq(n, _ => WaitOp)).life == tr.life
    decreases n
  {
    if n > 0 {
      var ops := seq(n, _ => WaitOp);
      assert ops[0] == WaitOp && ops[1..] == seq(n - 1, _ => WaitOp);
      WaitsKeepCachedLife(env, Step(env, tr, WaitOp), n - 1);
    }
  }

  class Process {
    const inp: IFdStream  // _in
    const out: OFdStream  // _out
    var pid: int          // _pid
    var alive: bool       // _alive
    var waitOnKill: bool  // _wait_on_kill

    function State(): Life reads this { Life(pid, alive) }

    /** process(): no child and default streams. */
    constructor ()
      ensures fresh(inp) && fresh(out)
      ensures inp.buf == Unopened && inp.shadowFd == -1 && !inp.failed
      ensures out.buf == Unopened && out.shadowFd == -1 && !out.failed
      ensures pid == -1 && !alive && waitOnKill
    {
      inp := new IFdStream();
      out := new OFdStream();
      pid := -1;
      alive := false;
      waitOnKill := true;
    }

    /** process(Args...): a default process, then spawn; an exception from spawn leaves no process. */
    static method FromArgs(k: Kernel, args: seq<string>) returns (r: Result<Process>, launch: LaunchResult)
      modifies k
      ensures k.deathSignal == old(k.deathSignal)
      ensures ParentState(k.fds, k.pipes, k.log) == AfterLaunch(k.env, old(k.fds), old(k.pipes), old(k.log))
      ensures Reported(k.env, k.self, old(k.fds), old(k.pipes), old(k.log), args, true, launch)
      ensures r.Err? <==> launch.Failed?
      ensures r.Err? ==> r.error == launch.error
      ensures r.Ok? ==> fresh(r.value) && fresh(r.value.inp) && fresh(r.value.out)
      ensures r.Ok? ==> r.value.State() == Life(launch.pid, true) && r.value.waitOnKill
      ensures r.Ok? ==> r.value.inp.buf == FileBuf(launch.readFd, true) && r.value.inp.shadowFd == launch.readFd
      ensures r.Ok? ==> !r.value.inp.failed && !r.value.out.failed
      ensures r.Ok? ==> r.value.out.buf == FileBuf(launch.writeFd, true) && r.value.out.shadowFd == launch.writeFd
    {
      var p := new Process();
      var s;
      s, launch := p.Spawn(k, args);
      if s.Fail? {
        return Err(s.error), launch;
      }
      r := Ok(p);
    }

    /**
     * The move constructor: default streams move-assigned from the source's and `_pid` copied;
     * `_alive` and `_wait_on_kill` are never written, so nothing is known of them.
     */
    constructor Move(src: Process, k: Kernel)
      modifies src.inp, src.out, k
      ensures fresh(inp) && fresh(out)
      ensures inp.buf == old(src.inp.buf) && inp.shadowFd == old(src.inp.shadowFd) && inp.failed == old(src.inp.failed)
      ensures out.buf == old(src.out.buf) && out.shadowFd == old(src.out.shadowFd) && out.failed == old(src.out.failed)
      ensures src.inp.buf == Unopened && src.inp.shadowFd == old(src.inp.shadowFd) && !src.inp.failed
      ensures src.out.buf == Unopened && src.out.shadowFd == old(src.out.shadowFd) && !src.out.failed
      ensures pid == src.pid && src.State() == old(src.State())
      ensures k.fds == old(k.fds) && k.log == old(k.log) && k.pipes == old(k.pipes) && k.deathSignal == old(k.deathSignal)
    {
      var i := new IFdStream();
      var o := new OFdStream();
      i.MoveAssign(src.inp, k);
      o.MoveAssign(src.out, k);
      inp := i;
      out := o;
      pid := src.pid;
      alive := *;
      waitOnKill := *;
    }

    /**
     * spawn(args): the launch protocol with redirection, then `_alive`, `_pid`, and the streams
     * bound to fd_r[0] and fd_w[1]. On an exception nothing of the process changes.
     */
    method Spawn(k: Kernel, args: seq<string>) returns (r: Outcome, launch: LaunchResult)
      modifies this, inp, out, k
      ensures waitOnKill == old(waitOnKill) && k.deathSignal == old(k.deathSignal)
      ensures r.Fail? <==> launch.Failed?
      ensures r.Fail? ==> r.error == launch.error
      ensures r.Fail? ==>
        && State() == old(State()) && ParentState(k.fds, k.pipes, k.log) == AfterLaunch(k.env, old(k.fds), old(k.pipes), old(k.log))
        && inp.buf == old(inp.buf) && inp.shadowFd == old(inp.shadowFd) && inp.failed == old(inp.failed)
        && out.buf == old(out.buf) && out.shadowFd == old(out.shadowFd) && out.failed == old(out.failed)
      ensures r.Pass? ==>
        var after := AfterLaunch(k.env, old(k.fds), old(k.pipes), old(k.log));
        && State() == Life(launch.pid, true) && launch.pid > 0
        && k.pipes == after.pipes
        && Rebound(inp, out, launch.readFd, launch.writeFd, old(inp.buf), old(out.buf), after.fds, after.log, k.fds, k.log)
        && launch.readFd in after.fds && after.fds[launch.readFd] == PipeEnd(old(k.pipes), ReadEnd)
        && launch.writeFd in after.fds && after.fds[launch.writeFd] == PipeEnd(old(k.pipes) + 1, WriteEnd)
      ensures Reported(k.env, k.self, old(k.fds), old(k.pipes), old(k.log), args, true, launch)
    {
      launch := Launch(k, args, true);
      if launch.Failed? {
        return Fail(launch.error), launch;
      }
      alive := true;
      pid := launch.pid;
      Rebind(inp, out, k, launch.readFd, launch.writeFd);
      r := Pass;
    }

    /** is_alive(). */
    method IsAlive(k: Kernel) returns (b: bool)
      modifies this, k
      ensures Trace(State(), k.log) == IsAliveSpec(k.env, Trace(old(State()), old(k.log)))
      ensures b == alive && waitOnKill == old(waitOnKill)
      ensures k.fds == old(k.fds) && k.pipes == old(k.pipes) && k.deathSignal == old(k.deathSignal)
    {
      if !alive {
        return false;
      }
      var reply := k.Waitpid(pid, WNOHANG);
      alive := reply.NoChange?;
      b := alive;
    }

    /** wait(). */
    method Wait(k: Kernel)
      modifies k
      ensures Trace(State(), k.log) == WaitSpec(Trace(State(), old(k.log)))
      ensures k.fds == old(k.fds) && k.pipes == old(k.pipes) && k.deathSignal == old(k.deathSignal)
    {
      var _ := k.Waitpid(pid, 0);
    }

    /** kill(sig, w). The result of ::kill is ignored. */
    method Kill(k: Kernel, sig: int, w: bool)
      modifies this, k
      ensures Trace(State(), k.log) == KillSpec(k.env, Trace(old(State()), old(k.log)), sig, w)
      ensures waitOnKill == old(waitOnKill)
      ensures k.fds == old(k.fds) && k.pipes == old(k.pipes) && k.deathSignal == old(k.deathSignal)
    {
      var a := IsAlive(k);
      if !a {
        return;
      }
      var _ := k.Kill(pid, sig);
      if w {
        Wait(k);
      }
    }

    /** kill(sig), and kill() with sig = SIGTERM: waits according to `_wait_on_kill`. */
    method KillDefault(k: Kernel, sig: int)
      modifies this, k
      ensures Trace(State(), k.log) == KillSpec(k.env, Trace(old(State()), old(k.log)), sig, old(waitOnKill))
      ensures waitOnKill == old(waitOnKill)
      ensures k.fds == old(k.fds) && k.pipes == old(k.pipes) && k.deathSignal == old(k.deathSignal)
    {
      Kill(k, sig, waitOnKill);
    }

    /** ~process(): kill(), then the members' destructors, `_out` before `_in`. */
    method Destroy(k: Kernel)
      modifies this, inp, out, k
      ensures var killed := KillSpec(k.env, Trace(old(State()), old(k.log)), SIGTERM, old(waitOnKill));
        && State() == killed.life
        && k.log == ReleasedLog(ReleasedLog(killed.log, old(out.buf)), old(inp.buf))
        && k.fds == Released(Released(old(k.fds), old(out.buf)), old(inp.buf))
      ensures !inp.buf.open && !out.buf.open
      ensures k.pipes == old(k.pipes) && k.deathSignal == old(k.deathSignal)
    {
      KillDefault(k, SIGTERM);
      out.Destroy(k);
      inp.Destroy(k);
    }

    method SetWaitOnKill(flag: bool)
      modifies this
      ensures waitOnKill == flag && State() == old(State())
    {
      waitOnKill := flag;
    }
  }
}
