/**
 * The process-creation protocol shared by the free function `spawn` and both `process::spawn`
 * methods: two pipes, the pid recorded, fork, the child rewiring its standard input and output
 * and replacing its image, the parent closing the child's ends. The free function returns the
 * parent's two ends as streams and keeps no handle on the child.
 */
module Spawn {
  import opened Results
  import opened Os
  import opened FdStream
  import opened Glibc

  /** The descriptors pipe(fd_r) and pipe(fd_w) fill in, for a table `t` before the first pipe. */
  function R0(t: FdTable): int { PipeReadFd(t) }
  function R1(t: FdTable): int { PipeWriteFd(t) }
  function W0(t: FdTable, n: nat): int { PipeReadFd(PipeTable(t, n)) }
  function W1(t: FdTable, n: nat): int { PipeWriteFd(PipeTable(t, n)) }

  /** The table at the fork: pipe `n` on fd_r, pipe `n + 1` on fd_w. */
  function ForkTable(t: FdTable, n: nat): FdTable { PipeTable(PipeTable(t, n), n + 1) }

  /** The parent's table once it has closed fd_w[0] and fd_r[1]. */
  function ParentTable(t: FdTable, w0: int, r1: int): FdTable { CloseTable(CloseTable(t, w0), r1) }

  /** The child's table when it calls execv: optionally fd 0 := w0 and fd 1 := r1, then w1 and r0 closed. */
  function ChildTable(t: FdTable, r0: int, r1: int, w0: int, w1: int, redirect: bool): FdTable
    requires redirect ==> w0 in t && (r1 in t || r1 == STDIN_FILENO)
  {
    var wired := if redirect then Dup2Table(Dup2Table(t, w0, STDIN_FILENO), r1, STDOUT_FILENO) else t;
    CloseTable(CloseTable(wired, w1), r0)
  }

  const PdeathsigCall: Event := PrctlCall(PR_SET_PDEATHSIG, SIGTERM)

  /** The child's kernel state when the callable given to fork has finished, and how it finished. */
  datatype ChildState = ChildState(fds: FdTable, log: seq<Event>, deathSignal: int, run: ChildRun)

  /** The close(fd_w[1]), close(fd_r[0]), execv(args) tail of the child. */
  function ExecTail(env: Env, t: FdTable, log: seq<Event>, args: seq<string>, r0: int, w1: int): ChildState {
    var closed := log + [CloseCall(w1)] + [CloseCall(r0)];
    var path := Argv(args)[0];
    var fate := if ExecvSucceeds(env, closed, path) then ImageReplaced(path.value, args) else Escaped(OsError("execv"));
    ChildState(CloseTable(CloseTable(t, w1), r0), closed + [ExecvCall(path, Argv(args))], SIGTERM, Ended(fate))
  }

  /**
   * What the child's callable does, from the child's table `t`, log `log` and parent-death signal
   * `ds` right after fork. It never returns normally: it exits with 1 when its parent changed
   * before the parent-death signal was registered, replaces its image, or throws.
   */
  function ChildSpec(env: Env, t: FdTable, log: seq<Event>, ds: int, args: seq<string>, ppidBeforeFork: int,
                     r0: int, r1: int, w0: int, w1: int, redirect: bool): (c: ChildState)
    ensures c.run.Ended?
    ensures |c.log| > |log| && c.log[|log|] == PdeathsigCall
    ensures c.run.fate.ExitWith? <==> !env.fails(log) && env.parentPid(log + [PdeathsigCall] + [PdeathsigCall]) != ppidBeforeFork
    ensures c.run.fate.ExitWith? ==>
      && c.run.fate.code == 1 && c.fds == t && c.deathSignal == SIGTERM
      && c.log == log + [PdeathsigCall] + [PdeathsigCall] + [GetppidCall]
    ensures c.run.fate.Escaped? ==> c.run.fate.error.operation in {PrctlText, "dup2", "execv"}
    ensures c.run.fate == Escaped(OsError(PrctlText)) <==> env.fails(log)
    ensures c.run.fate != Escaped(OsError(PrctlText)) ==> c.deathSignal == SIGTERM
    ensures c.run.fate == Escaped(OsError(PrctlText)) ==> c.fds == t && c.log == log + [PdeathsigCall] && c.deathSignal == ds
    ensures c.run.fate.ImageReplaced? ==>
      && |args| > 0 && c.run.fate == ImageReplaced(args[0], args)
      && (redirect ==> w0 in t && (r1 in t || r1 == STDIN_FILENO))
      && c.fds == ChildTable(t, r0, r1, w0, w1, redirect)
      && var checked := log + [PdeathsigCall] + [PdeathsigCall] + [GetppidCall];
         var wired := if redirect then checked + [Dup2Call(w0, STDIN_FILENO)] + [Dup2Call(r1, STDOUT_FILENO)] else checked;
         c.log == wired + [CloseCall(w1)] + [CloseCall(r0)] + [ExecvCall(Some(args[0]), Argv(args))]
    ensures c.run.fate == Escaped(OsError("dup2")) ==>
      && redirect && c.deathSignal == SIGTERM
      && var checked := log + [PdeathsigCall] + [PdeathsigCall] + [GetppidCall];
         var l1 := checked + [Dup2Call(w0, STDIN_FILENO)];
         || (Dup2Fails(env, t, checked, w0, STDIN_FILENO) && c.fds == t && c.log == l1)
         || (&& !Dup2Fails(env, t, checked, w0, STDIN_FILENO)
             && Dup2Fails(env, Dup2Table(t, w0, STDIN_FILENO), l1, r1, STDOUT_FILENO)
             && c.fds == Dup2Table(t, w0, STDIN_FILENO) && c.log == l1 + [Dup2Call(r1, STDOUT_FILENO)])
    ensures c.run.fate == Escaped(OsError("execv")) ==>
      && c.deathSignal == SIGTERM && (redirect ==> w0 in t && (r1 in t || r1 == STDIN_FILENO))
      && c.fds == ChildTable(t, r0, r1, w0, w1, redirect)
      && var checked := log + [PdeathsigCall] + [PdeathsigCall] + [GetppidCall];
         var wired := if redirect then checked + [Dup2Call(w0, STDIN_FILENO)] + [Dup2Call(r1, STDOUT_FILENO)] else checked;
         c.log == wired + [CloseCall(w1)] + [CloseCall(r0)] + [ExecvCall(Argv(args)[0], Argv(args))]
  {
    if env.fails(log) then
      ChildState(t, log + [PdeathsigCall], ds, Ended(Escaped(OsError(PrctlText))))
    else
      var checked := log + [PdeathsigCall] + [PdeathsigCall] + [GetppidCall];
      if env.parentPid(log + [PdeathsigCall] + [PdeathsigCall]) != ppidBeforeFork then
        ChildState(t, checked, SIGTERM, Ended(ExitWith(1)))
      else if !redirect then
        ExecTail(env, t, checked, args, r0, w1)
      else if Dup2Fails(env, t, checked, w0, STDIN_FILENO) then
        ChildState(t, checked + [Dup2Call(w0, STDIN_FILENO)], SIGTERM, Ended(Escaped(OsError("dup2"))))
      else
        var t1 := Dup2Table(t, w0, STDIN_FILENO);
        var l1 := checked + [Dup2Call(w0, STDIN_FILENO)];
        if Dup2Fails(env, t1, l1, r1, STDOUT_FILENO) then
          ChildState(t1, l1 + [Dup2Call(r1, STDOUT_FILENO)], SIGTERM, Ended(Escaped(OsError("dup2"))))
        else
          ExecTail(env, Dup2Table(t1, r1, STDOUT_FILENO), l1 + [Dup2Call(r1, STDOUT_FILENO)], args, r0, w1)
  }

  /**
   * The callable the spawn sites hand to fork, run on the child's kernel `ck`. It reads the
   * descriptors from the parent's arrays `fdR` and `fdW`, copied by the fork.
   */
  method ChildMain(ck: Kernel, args: seq<string>, ppidBeforeFork: int, fdR: array<int>, fdW: array<int>, redirect: bool)
    returns (run: ChildRun)
    requires fdR.Length == 2 && fdW.Length == 2
    modifies ck
    ensures ck.pipes == old(ck.pipes)
    ensures ChildState(ck.fds, ck.log, ck.deathSignal, run)
         == ChildSpec(ck.env, old(ck.fds), old(ck.log), old(ck.deathSignal), args, ppidBeforeFork,
                      fdR[0], fdR[1], fdW[0], fdW[1], redirect)
  {
    var h := HandleErrnoPrctl(ck, PR_SET_PDEATHSIG, SIGTERM);
    if h.Err? {
      return Ended(Escaped(h.error));
    }
    var ppid := ck.Getppid();
    if ppid != ppidBeforeFork {
      return Ended(ExitWith(1));
    }
    if redirect {
      var d := Dup(ck, fdW[0], STDIN_FILENO);
      if d.Fail? {
        return Ended(Escaped(d.error));
      }
      d := Dup(ck, fdR[1], STDOUT_FILENO);
      if d.Fail? {
        return Ended(Escaped(d.error));
      }
    }
    var _ := ck.Close(fdW[1]);
    var _ := ck.Close(fdR[0]);
    var f := Execv(ck, args);
    run := Ended(f);
  }

  /**
   * The outcome of the protocol: an exception in the parent, or the child's pid, the parent's two
   * ends, and the state the child's kernel was in when the callable given to fork was done.
   */
  datatype LaunchResult =
    | Failed(error: OsError)
    | Launched(pid: int, readFd: int, writeFd: int, child: ChildState)

  /** The log of a launch up to and including the fork. */
  function ForkLog(log: seq<Event>, ret: int): seq<Event> { log + [PipeCall] + [PipeCall] + [GetpidCall] + [ForkCall(ret)] }

  predicate FirstPipeFails(env: Env, log: seq<Event>) { env.fails(log) }

  predicate SecondPipeFails(env: Env, log: seq<Event>) { !env.fails(log) && env.fails(log + [PipeCall]) }

  predicate ForkFails(env: Env, log: seq<Event>) {
    !env.fails(log) && !env.fails(log + [PipeCall]) && ForkResult(env, log + [PipeCall] + [PipeCall] + [GetpidCall]) == -1
  }

  /** pipe(fd_r) then pipe(fd_w); the first failure throws. */
  method OpenPipes(k: Kernel, fdR: array<int>, fdW: array<int>) returns (p: Outcome)
    requires fdR.Length == 2 && fdW.Length == 2 && fdR != fdW
    modifies k, fdR, fdW
    ensures k.deathSignal == old(k.deathSignal)
    ensures p.Fail? <==> FirstPipeFails(k.env, old(k.log)) || SecondPipeFails(k.env, old(k.log))
    ensures p.Fail? ==> p.error == OsError("pipe")
    ensures FirstPipeFails(k.env, old(k.log)) ==>
      k.fds == old(k.fds) && k.pipes == old(k.pipes) && k.log == old(k.log) + [PipeCall]
    ensures SecondPipeFails(k.env, old(k.log)) ==>
      && k.fds == PipeTable(old(k.fds), old(k.pipes)) && k.pipes == old(k.pipes) + 1
      && k.log == old(k.log) + [PipeCall] + [PipeCall]
    ensures p.Pass? ==>
      var t, n := old(k.fds), old(k.pipes);
      && k.fds == ForkTable(t, n) && k.pipes == n + 2 && k.log == old(k.log) + [PipeCall] + [PipeCall]
      && fdR[0] == R0(t) && fdR[1] == R1(t) && fdW[0] == W0(t, n) && fdW[1] == W1(t, n)
  {
    p := Pipe(k, fdR);
    if p.Fail? {
      return;
    }
    p := Pipe(k, fdW);
  }

  /** fork(child): the parent gets the pid; the child runs ChildMain and then what the fork wrapper does after it. */
  method ForkChild(k: Kernel, args: seq<string>, ppidBeforeFork: int, fdR: array<int>, fdW: array<int>, redirect: bool)
    returns (r: Result<int>, child: Kernel?, fate: Fate)
    requires fdR.Length == 2 && fdW.Length == 2
    modifies k
    ensures var pid := ForkResult(k.env, old(k.log));
      && k.log == old(k.log) + [ForkCall(pid)]
      && r == (if pid == -1 then Err(OsError("fork")) else Ok(pid))
    ensures k.fds == old(k.fds) && k.pipes == old(k.pipes) && k.deathSignal == old(k.deathSignal)
    ensures r.Ok? ==> r.value > 0 && child != null && fresh(child) && child.env == k.env && child.self == r.value
    ensures r.Ok? ==>
      ChildState(child.fds, child.log, child.deathSignal, Ended(fate))
      == ChildSpec(k.env, k.fds, old(k.log) + [ForkCall(0)], 0, args, ppidBeforeFork,
                   fdR[0], fdR[1], fdW[0], fdW[1], redirect)
  {
    r, child := Fork(k);
    if r.Err? {
      return r, child, Escaped(r.error);
    }
    var run := ChildMain(child, args, ppidBeforeFork, fdR, fdW, redirect);
    fate := AfterChildFunction(run);
  }

  /** The parent's kernel state a launch leaves behind. */
  datatype ParentState = ParentState(fds: FdTable, pipes: nat, log: seq<Event>)

  /**
   * The parent's state after a launch from table `t`, next pipe `n` and log `log`. The
   * descriptors it had are never touched; a failure after the first pipe leaks what was created.
   */
  function AfterLaunch(env: Env, t: FdTable, n: nat, log: seq<Event>): (r: ParentState)
    ensures forall fd :: fd in t ==> fd in r.fds && r.fds[fd] == t[fd]
    ensures SecondPipeFails(env, log) ==> r.fds.Keys == t.Keys + {R0(t), R1(t)}
    ensures ForkFails(env, log) ==> r.fds.Keys == t.Keys + {R0(t), R1(t), W0(t, n), W1(t, n)}
    ensures !FirstPipeFails(env, log) && !SecondPipeFails(env, log) && !ForkFails(env, log) ==>
      && r.fds.Keys == t.Keys + {R0(t), W1(t, n)}
      && r.fds[R0(t)] == PipeEnd(n, ReadEnd) && r.fds[W1(t, n)] == PipeEnd(n + 1, WriteEnd)
    ensures FirstPipeFails(env, log) ==> r.fds == t
  {
    ForkFds(t, n);
    if FirstPipeFails(env, log) then ParentState(t, n, log + [PipeCall])
    else if SecondPipeFails(env, log) then ParentState(PipeTable(t, n), n + 1, log + [PipeCall] + [PipeCall])
    else if ForkFails(env, log) then ParentState(ForkTable(t, n), n + 2, ForkLog(log, -1))
    else
      var pid := ForkResult(env, log + [PipeCall] + [PipeCall] + [GetpidCall]);
      ParentWiring(t, n);
      ParentState(ParentTable(ForkTable(t, n), W0(t, n), R1(t)), n + 2,
                  ForkLog(log, pid) + [CloseCall(W0(t, n))] + [CloseCall(R1(t))])
  }

  /**
   * What a launch from table `t`, next pipe `n` and log `log` reports: the exception of the first
   * call that failed, or the pid fork returned, fd_r[0] and fd_w[1], and the child's final state.
   */
  predicate Reported(env: Env, self: int, t: FdTable, n: nat, log: seq<Event>, args: seq<string>, redirect: bool,
                     res: LaunchResult)
  {
    && (res.Failed? <==> FirstPipeFails(env, log) || SecondPipeFails(env, log) || ForkFails(env, log))
    && (res.Failed? ==> res.error == OsError(if ForkFails(env, log) then "fork" else "pipe"))
    && (res.Launched? ==>
         && res.pid == ForkResult(env, log + [PipeCall] + [PipeCall] + [GetpidCall]) && res.pid > 0
         && res.readFd == R0(t) && res.writeFd == W1(t, n)
         && res.child == ChildSpec(env, ForkTable(t, n), ForkLog(log, 0), 0, args, self,
                                   R0(t), R1(t), W0(t, n), W1(t, n), redirect))
  }

  /**
   * pipe(fd_r); pipe(fd_w); ppid_before_fork = getpid(); fork(child); close(fd_w[0]); close(fd_r[1]).
   * A failed pipe or fork throws and releases nothing that was already created.
   */
  method Launch(k: Kernel, args: seq<string>, redirect: bool) returns (res: LaunchResult)
    modifies k
    ensures k.deathSignal == old(k.deathSignal)
    ensures ParentState(k.fds, k.pipes, k.log) == AfterLaunch(k.env, old(k.fds), old(k.pipes), old(k.log))
    ensures Reported(k.env, k.self, old(k.fds), old(k.pipes), old(k.log), args, redirect, res)
  {
    var fdR := new int[2];  // the parent reads from this pipe
    var fdW := new int[2];  // the parent writes to this pipe
    ghost var t, n := k.fds, k.pipes;
    var p := OpenPipes(k, fdR, fdW);
    if p.Fail? {
      return Failed(p.error);
    }
    var ppidBeforeFork := k.Getpid();
    var r, ck, fate := ForkChild(k, args, ppidBeforeFork, fdR, fdW, redirect);
    if r.Err? {
      return Failed(r.error);
    }
    var child := ChildState(ck.fds, ck.log, ck.deathSignal, Ended(fate));
    assert child == ChildSpec(k.env, ForkTable(t, n), ForkLog(old(k.log), 0), 0, args, k.self,
                              R0(t), R1(t), W0(t, n), W1(t, n), redirect);
    var _ := k.Close(fdW[0]);
    var _ := k.Close(fdR[1]);
    res := Launched(r.value, fdR[0], fdW[1], child);
  }

  /** The four pipe descriptors are new and distinct; the two of fd_r are open before pipe(fd_w). */
  lemma ForkFds(t: FdTable, n: nat)
    ensures var r0, r1, w0, w1 := R0(t), R1(t), W0(t, n), W1(t, n);
      && r0 !in t && r1 !in t && w0 !in t && w1 !in t
      && r0 != r1 && r0 != w0 && r0 != w1 && r1 != w0 && r1 != w1 && w0 != w1
      && w0 < w1 && r0 < r1
      && ForkTable(t, n).Keys == t.Keys + {r0, r1, w0, w1}
      && ForkTable(t, n)[r0] == PipeEnd(n, ReadEnd) && ForkTable(t, n)[r1] == PipeEnd(n, WriteEnd)
      && ForkTable(t, n)[w0] == PipeEnd(n + 1, ReadEnd) && ForkTable(t, n)[w1] == PipeEnd(n + 1, WriteEnd)
      && (forall fd :: fd in t ==> ForkTable(t, n)[fd] == t[fd])
  {
    var t1 := PipeTable(t, n);
    PipeFdsOrdered(t);
    PipeFdsOrdered(t1);
    assert R0(t) in t1 && R1(t) in t1 && W0(t, n) !in t1 && W1(t, n) !in t1;
  }

  /**
   * The parent keeps the read end of pipe `n` and the write end of pipe `n + 1`, and nothing
   * else new: the child's ends fd_w[0] and fd_r[1] are closed in the parent.
   */
  lemma ParentWiring(t: FdTable, n: nat)
    ensures ParentTable(ForkTable(t, n), W0(t, n), R1(t))
         == t[R0(t) := PipeEnd(n, ReadEnd)][W1(t, n) := PipeEnd(n + 1, WriteEnd)]
  {
    ForkFds(t, n);
    var parent := ParentTable(ForkTable(t, n), W0(t, n), R1(t));
    var expected := t[R0(t) := PipeEnd(n, ReadEnd)][W1(t, n) := PipeEnd(n + 1, WriteEnd)];
    assert parent.Keys == expected.Keys;
  }

  /**
   * With standard input and output open before the launch, the redirected child reads from pipe
   * `n + 1` on fd 0 and writes to pipe `n` on fd 1; fd_w[1] and fd_r[0] are closed, fd_w[0] and
   * fd_r[1] stay open, and every other descriptor is inherited unchanged.
   */
  lemma ChildWiring(t: FdTable, n: nat)
    requires STDIN_FILENO in t && STDOUT_FILENO in t
    ensures var r0, r1, w0, w1 := R0(t), R1(t), W0(t, n), W1(t, n);
      var c := ChildTable(ForkTable(t, n), r0, r1, w0, w1, true);
      && c.Keys == t.Keys + {w0, r1}
      && c[STDIN_FILENO] == PipeEnd(n + 1, ReadEnd) && c[STDOUT_FILENO] == PipeEnd(n, WriteEnd)
      && c[w0] == PipeEnd(n + 1, ReadEnd) && c[r1] == PipeEnd(n, WriteEnd)
      && (forall fd :: fd in t && fd != STDIN_FILENO && fd != STDOUT_FILENO ==> c[fd] == t[fd])
  {
    ForkFds(t, n);
    var r0, r1, w0, w1 := R0(t), R1(t), W0(t, n), W1(t, n);
    var t2 := ForkTable(t, n);
    var d1 := Dup2Table(t2, w0, STDIN_FILENO);
    var d2 := Dup2Table(d1, r1, STDOUT_FILENO);
    assert d2[STDIN_FILENO] == PipeEnd(n + 1, ReadEnd);
  }

  /**
   * When standard input is closed before the launch, fd_r[0] is fd 0 itself, and the child's
   * close(fd_r[0]) after its dup2 onto fd 0 leaves the child with no standard input.
   */
  lemma StdinClosedLeavesChildWithoutStdin(t: FdTable, n: nat)
    requires STDIN_FILENO !in t && STDOUT_FILENO in t
    ensures R0(t) == STDIN_FILENO
    ensures STDIN_FILENO !in ChildTable(ForkTable(t, n), R0(t), R1(t), W0(t, n), W1(t, n), true)
  {
    var t1 := PipeTable(t, n);
    assert R0(t) in t1 && R1(t) in t1;
  }

  /**
   * The mirror case: when standard output is closed before the launch (and standard input open),
   * fd_r[0] is fd 1, and the child's close(fd_r[0]) after its dup2 onto fd 1 leaves the child with
   * no standard output.
   */
  lemma StdoutClosedLeavesChildWithoutStdout(t: FdTable, n: nat)
    requires STDIN_FILENO in t && STDOUT_FILENO !in t
    ensures R0(t) == STDOUT_FILENO
    ensures STDOUT_FILENO !in ChildTable(ForkTable(t, n), R0(t), R1(t), W0(t, n), W1(t, n), true)
  {
    assert LowestFree(t.Keys, 1) == 1;
    assert LowestFree(t.Keys, 0) == LowestFree(t.Keys, 1);
    var t1 := PipeTable(t, n);
    assert R0(t) in t1 && R1(t) in t1;
  }

  /**
   * Without redirection the child keeps the parent's standard input and output; it still closes
   * fd_w[1] and fd_r[0] and keeps fd_w[0] and fd_r[1].
   */
  lemma NoRedirectKeepsStdio(t: FdTable, n: nat)
    ensures var r0, r1, w0, w1 := R0(t), R1(t), W0(t, n), W1(t, n);
      var c := ChildTable(ForkTable(t, n), r0, r1, w0, w1, false);
      && c.Keys == t.Keys + {w0, r1}
      && (forall fd :: fd in t ==> c[fd] == t[fd])
      && c[w0] == PipeEnd(n + 1, ReadEnd) && c[r1] == PipeEnd(n, WriteEnd)
  {
    ForkFds(t, n);
  }

  /**
   * spawn(args): runs the protocol with redirection and returns input and output streams on the
   * parent's ends; the child's pid appears only in the fork the kernel logged.
   * `launch` is returned so that the child's side can be stated; the library returns only the streams.
   */
  method Spawn(k: Kernel, args: seq<string>) returns (r: Result<(IFdStream, OFdStream)>, ghost launch: LaunchResult)
    modifies k
    ensures k.deathSignal == old(k.deathSignal)
    ensures r.Err? <==> launch.Failed?
    ensures r.Err? ==> r.error == launch.error
    ensures ParentState(k.fds, k.pipes, k.log) == AfterLaunch(k.env, old(k.fds), old(k.pipes), old(k.log))
    ensures Reported(k.env, k.self, old(k.fds), old(k.pipes), old(k.log), args, true, launch)
    ensures r.Ok? ==> launch.Launched? && fresh(r.value.0) && fresh(r.value.1)
    ensures r.Ok? ==> r.value.0.shadowFd == launch.readFd && r.value.0.buf == FileBuf(launch.readFd, true)
    ensures r.Ok? ==> r.value.1.shadowFd == launch.writeFd && r.value.1.buf == FileBuf(launch.writeFd, true)
    ensures r.Ok? ==> !r.value.0.failed && !r.value.1.failed
    ensures r.Ok? ==> launch.readFd in k.fds && k.fds[launch.readFd] == PipeEnd(old(k.pipes), ReadEnd)
    ensures r.Ok? ==> launch.writeFd in k.fds && k.fds[launch.writeFd] == PipeEnd(old(k.pipes) + 1, WriteEnd)
    ensures r.Ok? && STDIN_FILENO in old(k.fds) && STDOUT_FILENO in old(k.fds) && launch.child.run.fate.ImageReplaced? ==>
      && STDIN_FILENO in launch.child.fds && launch.child.fds[STDIN_FILENO] == PipeEnd(old(k.pipes) + 1, ReadEnd)
      && STDOUT_FILENO in launch.child.fds && launch.child.fds[STDOUT_FILENO] == PipeEnd(old(k.pipes), WriteEnd)
  {
    ghost var t, n := k.fds, k.pipes;
    var l := Launch(k, args, true);
    launch := l;
    if l.Failed? {
      return Err(l.error), launch;
    }
    if STDIN_FILENO in t && STDOUT_FILENO in t {
      ChildWiring(t, n);
    }
    var i := new IFdStream.FromFd(l.readFd, k);
    var o := new OFdStream.FromFd(l.writeFd, k);
    r := Ok((i, o));
  }
}
