/**
 * The operating system as the library sees it: one process's descriptor table, the system calls
 * the library makes on it, and a log of those calls. Whatever the real kernel decides on its own
 * (whether a call fails, which pid fork returns, what getppid reports, what waitpid reaps) is
 * answered by an oracle, `Env`, as a function of the calls made so far.
 */
module Os {
  import opened Results

  const STDIN_FILENO: int := 0
  const STDOUT_FILENO: int := 1
  const SIGTERM: int := 15
  const WNOHANG: int := 1
  const PR_SET_PDEATHSIG: int := 1

  /** Which end of a pipe a descriptor refers to. */
  datatype Side = ReadEnd | WriteEnd

  /** What a descriptor refers to: an end of a pipe, or something the process inherited (a terminal, a file). */
  datatype Fd = PipeEnd(pipe: nat, side: Side) | Inherited(tag: int)

  type FdTable = map<int, Fd>

  /** The value WEXITSTATUS extracts (8 bits). */
  type ExitCode = c: int | 0 <= c < 256

  /** The value WTERMSIG extracts for a terminated child (7 bits, neither 0 nor 0x7f). */
  type SigNum = s: int | 0 < s < 127 witness 1

  /** A wait status word, abstracted: WIFEXITED, WIFSIGNALED, or neither. */
  datatype Status = Exited(code: ExitCode) | Signaled(sig: SigNum) | Stopped

  /**
   * What waitpid reports: 0 (no state change), a reaped child with its status, or -1. On -1 the
   * status variable is left unwritten; `garbage` is whatever it happened to hold.
   */
  datatype WaitReply = NoChange | Reaped(status: Status) | WaitFailed(garbage: Status)

  /** One system call, as recorded in a kernel's log. A fork records the value it returned. */
  datatype Event =
    | PipeCall
    | Dup2Call(oldfd: int, newfd: int)
    | CloseCall(fd: int)
    | GetpidCall
    | GetppidCall
    | ForkCall(ret: int)
    | PrctlCall(option: int, arg: int)
    | ExecvCall(path: Option<string>, argv: seq<Option<string>>)
    | WaitpidCall(pid: int, options: int)
    | KillCall(pid: int, sig: int)

  /** The oracle. Each function is applied to the log of the calls made before the one being answered. */
  datatype Env = Env(
    fails: seq<Event> -> bool,
    forkPid: seq<Event> -> int,
    parentPid: seq<Event> -> int,
    wait: seq<Event> -> WaitReply)

  /** The lowest descriptor number at or above `from` that is not in use (the rule pipe follows). */
  function LowestFree(used: set<int>, from: nat): (fd: nat)
    ensures from <= fd && fd !in used
    decreases set j | j in used && j >= from
  {
    if from in used then
      ghost var above := set j | j in used && j >= from;
      ghost var above' := set j | j in used && j >= from + 1;
      assert above' <= above && from in above && from !in above';
      LowestFree(used, from + 1)
    else from
  }

  /** Every descriptor number from `from` up to the one LowestFree picks is in use. */
  lemma {:induction false} LowestFreeIsLowest(used: set<int>, from: nat, j: int)
    requires from <= j < LowestFree(used, from)
    ensures j in used
    decreases set j | j in used && j >= from
  {
    if j > from {
      ghost var above := set j | j in used && j >= from;
      ghost var above' := set j | j in used && j >= from + 1;
      assert above' <= above && from in above && from !in above';
      LowestFreeIsLowest(used, from + 1, j);
    }
  }

  function PipeReadFd(t: FdTable): nat { LowestFree(t.Keys, 0) }

  function PipeWriteFd(t: FdTable): nat { LowestFree(t.Keys + {PipeReadFd(t)}, 0) }

  /** The table after a successful pipe(): two new descriptors, the lowest free ones, on the two ends of pipe `id`. */
  function PipeTable(t: FdTable, id: nat): (r: FdTable)
    ensures PipeReadFd(t) !in t && PipeWriteFd(t) !in t && PipeReadFd(t) != PipeWriteFd(t)
    ensures PipeReadFd(t) < PipeWriteFd(t)
    ensures r.Keys == t.Keys + {PipeReadFd(t), PipeWriteFd(t)}
    ensures r[PipeReadFd(t)] == PipeEnd(id, ReadEnd) && r[PipeWriteFd(t)] == PipeEnd(id, WriteEnd)
    ensures forall fd :: fd in t ==> r[fd] == t[fd]
  {
    PipeFdsOrdered(t);
    t[PipeReadFd(t) := PipeEnd(id, ReadEnd)][PipeWriteFd(t) := PipeEnd(id, WriteEnd)]
  }

  /** pipe's read end gets the lower of its two descriptors. */
  lemma PipeFdsOrdered(t: FdTable)
    ensures PipeReadFd(t) < PipeWriteFd(t)
  {
    var r, w := PipeReadFd(t), PipeWriteFd(t);
    if w < r {
      LowestFreeIsLowest(t.Keys, 0, w);
    }
  }

  /** The table after a successful dup2(oldfd, newfd): newfd, closed first if open, now refers to what oldfd does. */
  function Dup2Table(t: FdTable, oldfd: int, newfd: int): (r: FdTable)
    requires oldfd in t
    ensures r.Keys == t.Keys + {newfd}
    ensures r[newfd] == t[oldfd]
    ensures forall fd :: fd in t && fd != newfd ==> r[fd] == t[fd]
  {
    t[newfd := t[oldfd]]
  }

  /** The table after close(fd). */
  function CloseTable(t: FdTable, fd: int): (r: FdTable)
    ensures r.Keys == t.Keys - {fd}
    ensures forall d :: d in r ==> r[d] == t[d]
  {
    t - {fd}
  }

  /** dup2 fails on a descriptor that is not open, on a negative target, or when the kernel says so. */
  predicate Dup2Fails(env: Env, t: FdTable, log: seq<Event>, oldfd: int, newfd: int) {
    oldfd !in t || newfd < 0 || env.fails(log)
  }

  /** What fork returns in the parent: a positive pid, or -1. */
  function ForkResult(env: Env, log: seq<Event>): int {
    var v := env.forkPid(log);
    if v > 0 then v else -1
  }

  /** execv replaces the image only when it is given a path and the kernel accepts it. */
  predicate ExecvSucceeds(env: Env, log: seq<Event>, path: Option<string>) {
    path.Some? && !env.fails(log)
  }

  /** A descriptor that fdopen accepts for reading (or writing): open, and not the other end of a pipe. */
  predicate Readable(t: FdTable, fd: int) {
    fd in t && (t[fd].Inherited? || t[fd].side == ReadEnd)
  }

  predicate Writable(t: FdTable, fd: int) {
    fd in t && (t[fd].Inherited? || t[fd].side == WriteEnd)
  }

  /** One process's view of the kernel. */
  class Kernel {
    const env: Env
    const self: int            // what getpid returns
    var fds: FdTable           // the descriptor table
    var pipes: nat             // identity of the next pipe to create
    var log: seq<Event>        // the calls made, oldest first
    var deathSignal: int       // the signal registered with PR_SET_PDEATHSIG, 0 if none

    constructor (env: Env, self: int, fds: FdTable)
      ensures this.env == env && this.self == self && this.fds == fds
      ensures pipes == 0 && log == [] && deathSignal == 0
    {
      this.env := env;
      this.self := self;
      this.fds := fds;
      pipes := 0;
      log := [];
      deathSignal := 0;
    }

    /** The child's kernel right after fork: a copy of the parent's table; the parent-death signal is not inherited. */
    constructor Forked(parent: Kernel, pid: int)
      ensures env == parent.env && self == pid && fds == parent.fds && pipes == parent.pipes
      ensures log == parent.log + [ForkCall(0)] && deathSignal == 0
    {
      env := parent.env;
      self := pid;
      fds := parent.fds;
      pipes := parent.pipes;
      log := parent.log + [ForkCall(0)];
      deathSignal := 0;
    }

    /** pipe(fd): on success fills fd[0] with the read end and fd[1] with the write end. */
    method Pipe(fd: array<int>) returns (r: int)
      requires fd.Length == 2
      modifies this, fd
      ensures log == old(log) + [PipeCall] && deathSignal == old(deathSignal)
      ensures r == (if env.fails(old(log)) then -1 else 0)
      ensures r == -1 ==> fds == old(fds) && pipes == old(pipes) && fd[..] == old(fd[..])
      ensures r == 0 ==> fds == PipeTable(old(fds), old(pipes)) && pipes == old(pipes) + 1
      ensures r == 0 ==> fd[0] == PipeReadFd(old(fds)) && fd[1] == PipeWriteFd(old(fds))
    {
      if env.fails(log) {
        r := -1;
      } else {
        fd[0] := PipeReadFd(fds);
        fd[1] := PipeWriteFd(fds);
        fds := PipeTable(fds, pipes);
        pipes := pipes + 1;
        r := 0;
      }
      log := log + [PipeCall];
    }

    method Dup2(oldfd: int, newfd: int) returns (r: int)
      modifies this
      ensures log == old(log) + [Dup2Call(oldfd, newfd)]
      ensures pipes == old(pipes) && deathSignal == old(deathSignal)
      ensures r == (if Dup2Fails(env, old(fds), old(log), oldfd, newfd) then -1 else newfd)
      ensures fds == (if r == -1 then old(fds) else Dup2Table(old(fds), oldfd, newfd))
    {
      if Dup2Fails(env, fds, log, oldfd, newfd) {
        r := -1;
      } else {
        fds := Dup2Table(fds, oldfd, newfd);
        r := newfd;
      }
      log := log + [Dup2Call(oldfd, newfd)];
    }

    method Close(fd: int) returns (r: int)
      modifies this
      ensures log == old(log) + [CloseCall(fd)]
      ensures pipes == old(pipes) && deathSignal == old(deathSignal)
      ensures r == (if fd in old(fds) then 0 else -1)
      ensures fds == CloseTable(old(fds), fd)
    {
      r := if fd in fds then 0 else -1;
      fds := CloseTable(fds, fd);
      log := log + [CloseCall(fd)];
    }

    method Getpid() returns (pid: int)
      modifies this
      ensures pid == self && log == old(log) + [GetpidCall]
      ensures fds == old(fds) && pipes == old(pipes) && deathSignal == old(deathSignal)
    {
      pid := self;
      log := log + [GetpidCall];
    }

    method Getppid() returns (pid: int)
      modifies this
      ensures pid == env.parentPid(old(log)) && log == old(log) + [GetppidCall]
      ensures fds == old(fds) && pipes == old(pipes) && deathSignal == old(deathSignal)
    {
      pid := env.parentPid(log);
      log := log + [GetppidCall];
    }

    method Prctl(option: int, arg: int) returns (r: int)
      modifies this
      ensures log == old(log) + [PrctlCall(option, arg)]
      ensures fds == old(fds) && pipes == old(pipes)
      ensures r == (if env.fails(old(log)) then -1 else 0)
      ensures deathSignal == (if r == 0 && option == PR_SET_PDEATHSIG then arg else old(deathSignal))
    {
      r := if env.fails(log) then -1 else 0;
      if r == 0 && option == PR_SET_PDEATHSIG {
        deathSignal := arg;
      }
      log := log + [PrctlCall(option, arg)];
    }

    /** fork(): -1, or the child's pid together with the child's kernel, whose log records that fork returned 0. */
    method Fork() returns (pid: int, child: Kernel?)
      modifies this
      ensures pid == ForkResult(env, old(log)) && log == old(log) + [ForkCall(pid)]
      ensures fds == old(fds) && pipes == old(pipes) && deathSignal == old(deathSignal)
      ensures pid == -1 <==> child == null
      ensures child != null ==> fresh(child) && child.env == env && child.self == pid
      ensures child != null ==> child.fds == fds && child.pipes == pipes && child.deathSignal == 0
      ensures child != null ==> child.log == old(log) + [ForkCall(0)]
    {
      pid := ForkResult(env, log);
      if pid == -1 {
        child := null;
      } else {
        child := new Kernel.Forked(this, pid);
      }
      log := log + [ForkCall(pid)];
    }

    /** execv(path, argv): true when the image was replaced (the call does not return), false when it failed. */
    method Execv(path: Option<string>, argv: seq<Option<string>>) returns (replaced: bool)
      modifies this
      ensures log == old(log) + [ExecvCall(path, argv)]
      ensures fds == old(fds) && pipes == old(pipes) && deathSignal == old(deathSignal)
      ensures replaced == ExecvSucceeds(env, old(log), path)
    {
      replaced := ExecvSucceeds(env, log, path);
      log := log + [ExecvCall(path, argv)];
    }

    method Waitpid(pid: int, options: int) returns (r: WaitReply)
      modifies this
      ensures r == env.wait(old(log)) && log == old(log) + [WaitpidCall(pid, options)]
      ensures fds == old(fds) && pipes == old(pipes) && deathSignal == old(deathSignal)
    {
      r := env.wait(log);
      log := log + [WaitpidCall(pid, options)];
    }

    /** kill(pid, sig): the signal is recorded as sent; its delivery is the kernel's business. */
    method Kill(pid: int, sig: int) returns (r: int)
      modifies this
      ensures log == old(log) + [KillCall(pid, sig)]
      ensures r == (if env.fails(old(log)) then -1 else 0)
      ensures fds == old(fds) && pipes == old(pipes) && deathSignal == old(deathSignal)
    {
      r := if env.fails(log) then -1 else 0;
      log := log + [KillCall(pid, sig)];
    }
  }
}
