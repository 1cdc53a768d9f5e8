/**
 * The C++ wrappers over glibc calls: each throws `system_error` when the call returns -1.
 * A thrown exception is an `Err`/`Fail` value. `fork` takes a callable that the child runs; here
 * the child's side is run by the caller on the child's kernel, and `AfterChildFunction` is what
 * the wrapper does once that callable is done.
 */
module Glibc {
  import opened Results
  import opened Os
  import opened FdStream

  /** How a child process ends up: `_exit(code)`, a new program image, or an exception that escaped `fork`. */
  datatype Fate = ExitWith(code: int) | ImageReplaced(path: string, argv: seq<string>) | Escaped(error: OsError)

  /** How the callable given to `fork` finished in the child: it returned, or it never came back. */
  datatype ChildRun = Returned | Ended(fate: Fate)

  /** The throw-on-minus-one mapping shared by `dup`, `pipe` and `fork`. */
  function Check(ret: int, operation: string): Outcome {
    if ret == -1 then Fail(OsError(operation)) else Pass
  }

  /** The text `#expr` of the one HANDLE_ERRNO use in the library. */
  const PrctlText: string := "prctl(PR_SET_PDEATHSIG, SIGTERM)"

  /**
   * HANDLE_ERRNO(prctl(option, arg)): the expression is evaluated, a -1 throws, and otherwise the
   * expression is evaluated a second time and that value is the result, even when it is -1.
   */
  method HandleErrnoPrctl(k: Kernel, option: int, arg: int) returns (r: Result<int>)
    modifies k
    ensures k.fds == old(k.fds) && k.pipes == old(k.pipes)
    ensures var first := old(k.log) + [PrctlCall(option, arg)];
      if k.env.fails(old(k.log)) then
        r == Err(OsError(PrctlText)) && k.log == first && k.deathSignal == old(k.deathSignal)
      else
        && r == Ok(if k.env.fails(first) then -1 else 0)
        && k.log == first + [PrctlCall(option, arg)]
        && k.deathSignal == (if option == PR_SET_PDEATHSIG then arg else old(k.deathSignal))
  {
    var value := k.Prctl(option, arg);
    if value == -1 {
      return Err(OsError(PrctlText));
    }
    value := k.Prctl(option, arg);
    r := Ok(value);
  }

  /** The argument vector execv passes: every argument, then a null pointer. */
  function Argv(args: seq<string>): (argv: seq<Option<string>>)
    ensures |argv| == |args| + 1 && argv[|args|] == None
    ensures forall i :: 0 <= i < |args| ==> argv[i] == Some(args[i])
  {
    seq(|args|, i requires 0 <= i < |args| => Some(args[i])) + [None]
  }

  /** The loop in execv that fills a fresh array of |args| + 1 pointers. */
  method MakeArgv(args: seq<string>) returns (argv: array<Option<string>>)
    ensures argv.Length == |args| + 1
    ensures forall i :: 0 <= i < |args| ==> argv[i] == Some(args[i])
    ensures argv[|args|] == None
    ensures argv[..] == Argv(args)
  {
    argv := new Option<string>[|args| + 1];
    var i := 0;
    while i < |args|
      invariant 0 <= i <= |args|
      invariant forall j :: 0 <= j < i ==> argv[j] == Some(args[j])
    {
      argv[i] := Some(args[i]);
      i := i + 1;
    }
    argv[i] := None;
  }

  /** execv(args): runs argv[0] with argv; it comes back only by throwing "execv". */
  method Execv(k: Kernel, args: seq<string>) returns (f: Fate)
    modifies k
    ensures var path := Argv(args)[0];
      && k.log == old(k.log) + [ExecvCall(path, Argv(args))]
      && f == (if ExecvSucceeds(k.env, old(k.log), path) then ImageReplaced(path.value, args)
               else Escaped(OsError("execv")))
    ensures f.ImageReplaced? ==> |args| > 0 && f.path == args[0]
    ensures k.fds == old(k.fds) && k.pipes == old(k.pipes) && k.deathSignal == old(k.deathSignal)
  {
    var argv := MakeArgv(args);
    var replaced := k.Execv(argv[0], argv[..]);
    if replaced {
      return ImageReplaced(argv[0].value, args);
    }
    return Escaped(OsError("execv"));
  }

  /** dup(oldfd, newfd): dup2, throwing "dup2" on -1. */
  method Dup(k: Kernel, oldfd: int, newfd: int) returns (r: Outcome)
    modifies k
    ensures k.log == old(k.log) + [Dup2Call(oldfd, newfd)]
    ensures k.pipes == old(k.pipes) && k.deathSignal == old(k.deathSignal)
    ensures r == (if Dup2Fails(k.env, old(k.fds), old(k.log), oldfd, newfd) then Fail(OsError("dup2")) else Pass)
    ensures k.fds == (if r.Fail? then old(k.fds) else Dup2Table(old(k.fds), oldfd, newfd))
  {
    var rc := k.Dup2(oldfd, newfd);
    r := Check(rc, "dup2");
  }

  /** pipe(fd): throws "pipe" on -1, otherwise fd holds the two new descriptors. */
  method Pipe(k: Kernel, fd: array<int>) returns (r: Outcome)
    requires fd.Length == 2
    modifies k, fd
    ensures k.log == old(k.log) + [PipeCall] && k.deathSignal == old(k.deathSignal)
    ensures r == (if k.env.fails(old(k.log)) then Fail(OsError("pipe")) else Pass)
    ensures r.Fail? ==> k.fds == old(k.fds) && k.pipes == old(k.pipes) && fd[..] == old(fd[..])
    ensures r.Pass? ==> k.fds == PipeTable(old(k.fds), old(k.pipes)) && k.pipes == old(k.pipes) + 1
    ensures r.Pass? ==> fd[0] == PipeReadFd(old(k.fds)) && fd[1] == PipeWriteFd(old(k.fds))
  {
    var rc := k.Pipe(fd);
    r := Check(rc, "pipe");
  }

  /**
   * The parent's side of fork(child_function): throws "fork" on -1, otherwise returns the child's
   * pid; `child` is the child's kernel, on which the caller runs the callable.
   */
  method Fork(k: Kernel) returns (r: Result<int>, child: Kernel?)
    modifies k
    ensures var pid := ForkResult(k.env, old(k.log));
      && k.log == old(k.log) + [ForkCall(pid)]
      && r == (if pid == -1 then Err(OsError("fork")) else Ok(pid))
    ensures k.fds == old(k.fds) && k.pipes == old(k.pipes) && k.deathSignal == old(k.deathSignal)
    ensures r.Err? <==> child == null
    ensures r.Ok? ==> r.value > 0 && child != null && fresh(child) && child.env == k.env && child.self == r.value
    ensures r.Ok? ==> child.fds == k.fds && child.pipes == k.pipes && child.deathSignal == 0
    ensures r.Ok? ==> child.log == old(k.log) + [ForkCall(0)]
  {
    var pid, c := k.Fork();
    if pid == -1 {
      return Err(OsError("fork")), null;
    }
    r, child := Ok(pid), c;
  }

  /** The child's side of fork after child_function: `_exit(0)` if it returned; an exception keeps propagating. */
  function AfterChildFunction(run: ChildRun): Fate {
    match run
    case Returned => ExitWith(0)
    case Ended(fate) => fate
  }

  /**
   * pipe(in, out): ignores its arguments and returns two new streams over a new pipe, throwing
   * "pipe" on failure.
   */
  method PipeStreams(k: Kernel, inArg: IFdStream, outArg: OFdStream) returns (r: Result<(IFdStream, OFdStream)>)
    modifies k
    ensures k.log == old(k.log) + [PipeCall] && k.deathSignal == old(k.deathSignal)
    ensures r.Err? <==> k.env.fails(old(k.log))
    ensures r.Err? ==> r.error == OsError("pipe") && k.fds == old(k.fds) && k.pipes == old(k.pipes)
    ensures r.Ok? ==> k.fds == PipeTable(old(k.fds), old(k.pipes)) && k.pipes == old(k.pipes) + 1
    ensures r.Ok? ==> fresh(r.value.0) && fresh(r.value.1)
    ensures r.Ok? ==> r.value.0.shadowFd == PipeReadFd(old(k.fds)) && r.value.0.buf == FileBuf(PipeReadFd(old(k.fds)), true)
    ensures r.Ok? ==> r.value.1.shadowFd == PipeWriteFd(old(k.fds)) && r.value.1.buf == FileBuf(PipeWriteFd(old(k.fds)), true)
    ensures r.Ok? ==> !r.value.0.failed && !r.value.1.failed
  {
    var fd := new int[2];
    var rc := k.Pipe(fd);
    if rc == -1 {
      return Err(OsError("pipe"));
    }
    var i := new IFdStream.FromFd(fd[0], k);
    var o := new OFdStream.FromFd(fd[1], k);
    r := Ok((i, o));
  }
}
