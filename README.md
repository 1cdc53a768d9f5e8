# tlib process core in Dafny

A model of the process-spawning core of the C++ header library tlib, with proofs about it. The core is:

- `tlib::process` and its older variant. Each is a child process with an input stream on one pipe and an output stream on another. It keeps a cached view of the child's lifecycle, updated from `waitpid`.
- The free function `spawn`, which returns the two streams and no process handle.
- The glibc wrappers that throw `system_error` on -1.
- The `ifdstream`/`ofdstream` descriptor streams.
- `diff_checker`.
- `type_name`.

The kernel is the class `Os.Kernel` (os.dfy). It is the environment, not part of the library:

- a descriptor table `map<int, Fd>`, where each entry is a pipe end or an inherited descriptor;
- a counter of pipes created;
- the parent-death signal;
- a log of every system call made.

Each call appends one event to the log. Anything the kernel decides is answered by an oracle `Env`, as a function of the log of earlier calls: whether a call fails, fork's result, the parent pid, and waitpid's reply. `pipe` takes the two lowest free descriptors. `dup2` and `close` fail on a descriptor that is not open. `fork` returns a fresh child kernel with a copy of the table.

The callable given to `fork` is run explicitly on the child kernel (`Spawn.ChildMain`). `Glibc.AfterChildFunction` is what the wrapper does once that callable is done. A C++ exception is an `Err`/`Fail` value or an `Escaped` fate.

A member that may never have been written is a `Process.Cell` (`Unset | Value(v)`). When waitpid returns -1, the status word it leaves unwritten is `WaitFailed(garbage)`: an arbitrary status that `__wait` then inspects.

Some operations are functions read directly, with no contract of their own:

- `is_open()` and `fd()` are `IFdStream.IsOpen`/`Fd` and `OFdStream.IsOpen`/`Fd`, which return the filebuf's open flag and `_M_fd`;
- `status()`/`signal()` are `Process.Process.Status`/`Signal`, and `ssignal()` is `Process.Process.SSignal`, which reads `_signal` through `Process.SignalName`; what it can report is stated by `Process.SignalNamedIffRecorded`;
- the throw-on-minus-one mapping `Glibc.Check`, whose promise is stated by the `Glibc.Dup` and `Glibc.Pipe` contracts;
- `Glibc.AfterChildFunction`, the child's `_exit(0)` after its callable returns. `Spawn.ForkChild` applies it, and since the callable given there never returns normally, the child's fate is the one `Spawn.ChildSpec` states;
- `FdStream.OpenFileBuf`, the filebuf built over a descriptor, whose effect is stated by the two `FromFd` constructors;
- the variadic `spawn(Args...)` and `execv(Args...)` overloads forward to the list versions, so they are the same members.

Behaviour modelled as written, where a reader might expect otherwise:

- An exception thrown in the child by `HANDLE_ERRNO`, `dup` or `execv` escapes the callable. It never reaches `_exit(0)` (`Escaped` fate).
- `HANDLE_ERRNO(prctl(...))` calls prctl twice. The second result is what it yields, even when it is -1.
- A failed second `pipe` or `fork` leaks the descriptors already created (`Spawn.AfterLaunch`).
- The child keeps `fd_w[0]` and `fd_r[1]` open after its `dup2`s.
- When the parent's fd 0 is closed, `fd_r[0]` is fd 0 itself, and the child then has no standard input (`Spawn.StdinClosedLeavesChildWithoutStdin`). Likewise, when fd 1 is closed and fd 0 open, `fd_r[0]` is fd 1, and the child has no standard output (`Spawn.StdoutClosedLeavesChildWithoutStdout`).
- The `process` move constructor leaves the source's `_pid` and `_alive`, so the source's destructor still kills the child.
- The old move constructor never writes `_alive` or `_wait_on_kill` (havocked).
- `_status`/`_signal` are initialised only by the variadic constructor; afterwards they are written by `__wait` and copied by the move constructor.
- After waitpid returns -1, `__wait` inspects an unwritten status word.
- `ofdstream::swap` does not swap `_M_fd`.
- The old `wait()` never updates `_alive`.
- Respawning can close a newly created pipe end: when either stream's old filebuf is still open on a descriptor that was closed behind its back and that `pipe` hands out again as `fd_r[0]` or `fd_w[1]`, releasing that old filebuf closes the new end. On the ordinary respawn path both old descriptors are still open, `pipe` cannot reuse them, and this does not happen. `FdStream.Rebound`, which `Process.Process.Spawn` ensures, states the exact effect.

## Model

| member | source | states |
|---|---|---|
| Os.LowestFreeIsLowest | glibc_wrapper.hpp:58-61 | every descriptor below the one pipe allocates is already open: pipe takes the lowest free number |
| Os.PipeTable | glibc_wrapper.hpp:58-61 | pipe adds exactly two new, distinct descriptors, read end below write end, with the pipe's two ends; every existing descriptor is kept |
| Os.PipeFdsOrdered | glibc_wrapper.hpp:58-61 | the read end pipe allocates is numbered below the write end |
| FdStream.CloseFileBuf | fdstream.hpp:57-60 | closing an unopened filebuf fails and makes no call; closing an open one closes its descriptor and succeeds iff the descriptor was open |
| FdStream.IFdStream.constructor | fdstream.hpp:18-20 | a default stream has `fd() == -1`, an unopened filebuf and a clear state |
| FdStream.IFdStream.FromFd | fdstream.hpp:22-24 | `fd() == fd`, and the filebuf is bound to `fd` iff it is open and readable |
| FdStream.IFdStream.Move | fdstream.hpp:28-32 | the new stream takes the source's filebuf, `_M_fd` and state; the source's filebuf is unopened but its `_M_fd` is not reset |
| FdStream.IFdStream.MoveAssign | fdstream.hpp:38-43 | the destination's old filebuf is closed, then it takes the source's filebuf and `_M_fd`; the states are swapped; the source keeps its `_M_fd` |
| FdStream.IFdStream.Swap | fdstream.hpp:45-49 | filebufs, `_M_fd` and states are exchanged |
| FdStream.IFdStream.Close | fdstream.hpp:57-60 | afterwards the filebuf is not open; failbit is set iff the filebuf close failed; `fd()` is unchanged |
| FdStream.IFdStream.Destroy | fdstream.hpp:34 | the destructor closes the filebuf if it is open, and only then |
| FdStream.OFdStream.constructor | fdstream.hpp:75-77 | a default stream has `fd() == -1`, an unopened filebuf and a clear state |
| FdStream.OFdStream.FromFd | fdstream.hpp:79-81 | `fd() == fd`, and the filebuf is bound to `fd` iff it is open and writable |
| FdStream.OFdStream.Move | fdstream.hpp:85-89 | the new stream takes the source's filebuf, `_M_fd` and state; the source's `_M_fd` is not reset |
| FdStream.OFdStream.MoveAssign | fdstream.hpp:95-100 | the destination's old filebuf is closed, then it takes the source's filebuf and `_M_fd`; the states are swapped |
| FdStream.OFdStream.Swap | fdstream.hpp:102-105 | filebufs and states are exchanged, but each stream keeps its own `_M_fd` |
| FdStream.OFdStream.Close | fdstream.hpp:113-116 | afterwards the filebuf is not open; failbit is set iff the close failed; `fd()` is unchanged |
| FdStream.OFdStream.Destroy | fdstream.hpp:91 | the destructor closes the filebuf if it is open, and only then |
| FdStream.Rebind | include/process.hpp:73-74 | assigning fresh streams on `readFd` and `writeFd` closes what each stream held before, and each then holds and reports its new descriptor |
| FdStream.SwapTwice | fdstream.hpp:45-49 | swapping two input streams twice restores both |
| Glibc.HandleErrnoPrctl | glibc_wrapper.hpp:10-14 | a first -1 throws the expression's text after one call; otherwise the call is made a second time and its result is returned |
| Glibc.Argv | glibc_wrapper.hpp:22-27 | argv has length \|args\| + 1, `argv[i] == args[i]` below \|args\|, and a null last entry |
| Glibc.MakeArgv | glibc_wrapper.hpp:22-27 | the loop fills a fresh array of \|args\| + 1 entries with every argument, then null |
| Glibc.Execv | glibc_wrapper.hpp:21-31 | execv gets argv[0] as the path; the image is replaced only with a non-empty argument list, and otherwise "execv" is thrown |
| Glibc.Dup | glibc_wrapper.hpp:38-41 | throws "dup2" iff dup2 fails; on success `newfd` refers to what `oldfd` refers to |
| Glibc.Pipe | glibc_wrapper.hpp:58-61 | throws "pipe" iff pipe fails and then nothing changes; otherwise the array holds the two new descriptors |
| Glibc.Fork | glibc_wrapper.hpp:43-56 | throws "fork" iff fork returns -1; otherwise the parent gets a positive pid, and the child kernel gets a copy of the table and a history ending in fork returning 0 |
| Glibc.PipeStreams | glibc_wrapper.hpp:63-70 | throws "pipe" iff pipe fails; otherwise returns an input stream on the read end and an output stream on the write end, both in a clear state, whatever the arguments |
| Spawn.ChildSpec | spawn.hpp:20-30 | prctl comes first; exit code 1 iff the parent changed, with no descriptor change; the only escapes are the prctl text (with the inherited table and only the first prctl call), "dup2" and "execv"; a replaced image ran args[0] with the wired table and the exact call sequence; a thrown "dup2" left the table and calls of whichever of the two dup2s failed; a thrown "execv" happened after the full wiring and both closes |
| Spawn.ChildMain | include/process.hpp:52-66 | the child's callable, step by step, ends in the state and fate `ChildSpec` gives |
| Spawn.OpenPipes | spawn.hpp:15-16 | which pipe failed and what each failure leaves; on success both pipes are open and fd_r, fd_w hold their ends |
| Spawn.ForkChild | spawn.hpp:18-31 | fork, then the child's callable on the child kernel, giving `ChildSpec` from the forked table and history |
| Spawn.AfterLaunch | spawn.hpp:15-34 | the parent keeps all its descriptors; each failure leaks what was already created; a launch adds exactly fd_r[0] (read end of pipe R) and fd_w[1] (write end of pipe W) |
| Spawn.Launch | spawn.hpp:12-34 | the parent's final state is `AfterLaunch`; it fails iff a pipe or the fork failed, with the matching error; otherwise it reports the pid, fd_r[0], fd_w[1] and the child's `ChildSpec` |
| Spawn.ForkFds | spawn.hpp:15-16 | the four pipe descriptors are new and pairwise distinct, and each holds its pipe end |
| Spawn.ParentWiring | spawn.hpp:33-34 | after closing fd_w[0] and fd_r[1], the parent's table is the old table plus the read end of pipe R and the write end of pipe W |
| Spawn.ChildWiring | spawn.hpp:24-28 | with fd 0 and fd 1 open, the child's fd 0 is the read end of pipe W, its fd 1 the write end of pipe R, fd_w[1] and fd_r[0] are closed, and all else is inherited |
| Spawn.StdinClosedLeavesChildWithoutStdin | spawn.hpp:24-28 | with fd 0 closed in the parent, fd_r[0] is 0, and the child ends with no fd 0 |
| Spawn.StdoutClosedLeavesChildWithoutStdout | spawn.hpp:24-28 | with fd 1 closed and fd 0 open in the parent, fd_r[0] is 1, and the child ends with no fd 1 |
| Spawn.NoRedirectKeepsStdio | include/process.hpp:57-63 | without redirection, the child keeps every inherited descriptor, including 0 and 1, and still closes fd_w[1] and fd_r[0] |
| Spawn.Spawn | spawn.hpp:10-37 | the launch with redirection; the returned streams hold fd_r[0] and fd_w[1], the read end of R and the write end of W, both in a clear state; when fd 0 and fd 1 were open and the image was replaced, the child's fd 0 is the other end of the output stream's pipe and its fd 1 the other end of the input stream's pipe |
| Process.WaitSpec | include/process.hpp:143-155 | no call when dead; one waitpid otherwise; 0 changes nothing; another answer kills the process and sets `_status` iff the examined word says exited, `_signal` iff it says signalled |
| Process.SignalNamedIffRecorded | include/process.hpp:89 | whatever sequence of calls follows the variadic constructor, ssignal() names a signal exactly when `__wait` recorded one, and then a valid signal number |
| Process.KillSpec | include/process.hpp:93-97 | the signal is sent only after a probe that finds the process alive, followed by a blocking wait iff `w` that starts from the probe and the kill; dead processes are untouched; earlier calls stay in the log as they were |
| Process.DeadProcessIsInert | include/process.hpp:143-144 | once dead, any sequence of is_alive, wait and kill changes nothing and makes no call |
| Process.NeverRevives | include/process.hpp:143-155 | no sequence of calls makes a dead process alive again or changes its pid |
| Process.OutcomeRecordedOnce | include/process.hpp:150-154 | nothing is recorded while alive, and at most one of `_status`, `_signal` is ever recorded |
| Process.Process.constructor | include/process.hpp:16-17 | not alive, `_pid == -1`, both flags at their defaults, default streams, `_status` and `_signal` unwritten |
| Process.Process.Move | include/process.hpp:30-40 | the streams move, and every other member is copied; the source keeps its pid and `_alive` |
| Process.Process.FromList | include/process.hpp:19-21 | a spawned process with `_status`/`_signal` unwritten and its streams open on fd_r[0] and fd_w[1] in a clear state, or the spawn's exception; the parent-death signal is untouched |
| Process.Process.FromArgs | include/process.hpp:23-26 | a spawned process with `_status == _signal == -1` and its streams open on fd_r[0] and fd_w[1] in a clear state, or the spawn's exception; the parent-death signal is untouched |
| Process.Process.Spawn | include/process.hpp:44-75 | the launch, redirecting iff not disabled; on success alive with the fork's pid, and the streams rebound to fd_r[0] and fd_w[1]; on an exception the lifecycle and both streams (filebuf, `_M_fd`, state) are unchanged |
| Process.Process.Adopt | include/process.hpp:71-74 | `_alive`, `_pid`, then the two stream assignments |
| Process.Process.WaitInternal | include/process.hpp:143-155 | `__wait` moves the lifecycle as `WaitSpec` says and changes nothing else |
| Process.Process.IsAlive | include/process.hpp:82-85 | a non-blocking `__wait`, returning the updated `_alive` |
| Process.Process.Wait | include/process.hpp:91 | a blocking `__wait` |
| Process.Process.Kill | include/process.hpp:93-97 | the lifecycle and calls `KillSpec` gives; the result of ::kill is ignored |
| Process.Process.KillDefault | include/process.hpp:99 | `kill(sig)` is `kill(sig, _wait_on_kill)` |
| Process.Process.Destroy | include/process.hpp:42 | `kill(SIGTERM, _wait_on_kill)`, then the output stream's filebuf, then the input stream's, is closed if open |
| Process.Process.SetWaitOnKill | include/process.hpp:128 | sets `_wait_on_kill` only |
| Process.Process.DisableStdioRedirection | include/process.hpp:129 | sets `_no_stdio_redirect` only |
| LegacyProcess.IsAliveSpec | process.hpp:68-71 | no call when `_alive` is false; otherwise one non-blocking waitpid, and `_alive` becomes "it answered 0", so -1 and a reaped child both mean dead |
| LegacyProcess.WaitSpec | process.hpp:73 | one blocking waitpid on `_pid`, whatever `_alive` says, with nothing cached |
| LegacyProcess.KillSpec | process.hpp:75-79 | a signal and an optional wait, only after a probe that finds the process alive; only the probe changes `_alive`; earlier calls stay in the log as they were |
| LegacyProcess.DeadProcessOnlyWaits | process.hpp:68-73 | once `_alive` is false, is_alive and kill make no call, and each wait() still issues one blocking waitpid |
| LegacyProcess.NeverRevives | process.hpp:68-81 | no sequence of calls makes a dead process alive again or changes its pid |
| LegacyProcess.WaitsKeepCachedLife | process.hpp:73 | any number of wait() calls leave `_alive` and `_pid` as they were |
| LegacyProcess.Process.constructor | process.hpp:14-15 | not alive, `_pid == -1`, waits on kill, default streams |
| LegacyProcess.Process.FromArgs | process.hpp:17-20 | a spawned process with its streams open on fd_r[0] and fd_w[1] in a clear state, or the spawn's exception; the parent-death signal is untouched |
| LegacyProcess.Process.Move | process.hpp:24-28 | the streams move and `_pid` is copied; `_alive` and `_wait_on_kill` are unknown |
| LegacyProcess.Process.Spawn | process.hpp:32-61 | the launch, always redirecting; on success alive with the fork's pid, and the streams rebound; on an exception the lifecycle and both streams (filebuf, `_M_fd`, state) are unchanged |
| LegacyProcess.Process.IsAlive | process.hpp:68-71 | the lifecycle and calls `IsAliveSpec` gives, returning the new `_alive` |
| LegacyProcess.Process.Wait | process.hpp:73 | one blocking waitpid, with the lifecycle unchanged |
| LegacyProcess.Process.Kill | process.hpp:75-79 | the lifecycle and calls `KillSpec` gives |
| LegacyProcess.Process.KillDefault | process.hpp:81 | `kill(sig)` is `kill(sig, _wait_on_kill)` |
| LegacyProcess.Process.Destroy | process.hpp:30 | `kill(SIGTERM, _wait_on_kill)`, then the output stream's and then the input stream's filebuf closed if open |
| LegacyProcess.Process.SetWaitOnKill | process.hpp:109 | sets `_wait_on_kill` only |
| Checkers.IStream.Get | include/checkers.hpp:16-17 | `get(c)` extracts the next character from a good stream; at the end it sets eof and fail; on a bad stream it sets fail; `c` is untouched whenever nothing is extracted |
| Checkers.DiffChecker | include/checkers.hpp:7-23 | false on an already failed stream; true only when both streams reached eof and had the same remaining characters; the loop terminates |
| TypeName.FindFrom | include/type_name.hpp:20 | the first occurrence of the pattern at or after `i`, or none at all |
| TypeName.PrefixSize | include/type_name.hpp:20 | where "void" first occurs in the spelling for void |
| TypeName.SuffixSize | include/type_name.hpp:21 | prefix_size + 4 + suffix_size is the length of the spelling for void |
| TypeName.TypeNameOf | include/type_name.hpp:16-28 | the spelling for `t`, cut from prefix_size to its length minus suffix_size |
| TypeName.TypeNameExact | include/type_name.hpp:16-28 | if every spelling is P + name + S, and "void" does not occur in P + "voi", the cuts are defined and give exactly the type's name |
| TypeName.RvalueRefTo | include/type_name.hpp:30-33 | reference collapsing for `T&&`: the result is always a reference, an lvalue reference exactly when the argument is one; a reference type is kept and any other type becomes the referent |
| TypeName.RvalueRefIdempotent | include/type_name.hpp:30-33 | collapsing an already collapsed type changes nothing |
| TypeName.ForwardedType | include/type_name.hpp:30-33 | decltype of a `T&&` parameter is an lvalue reference for an lvalue argument and an rvalue reference for an rvalue one |
| TypeName.TypeNameOfValue | include/type_name.hpp:30-33 | `type_name(t)` is `type_name<decltype(t)>()` |

## Left out

- Byte transfer over the pipes, formatted I/O and libstdc++ buffering. A filebuf is only its descriptor and open flag, and a stream state is its failbit (in `Checkers`, also its eofbit).
- The forwarding operators and conversions (include/process.hpp:101-125, process.hpp:83-106). They are thin wrappers over library streams this model does not contain.
- What the kernel does beyond the descriptor table: the new program image's behaviour, when blocking calls return, actual signal delivery, and PDEATHSIG taking effect. These are oracle answers or logged calls.
- Scheduling and concurrency between parent and child. The child's side is run to completion, after the parent's fork call.
- The wait-status bit layout (WIFEXITED and the rest). A status is `Exited(code) | Signaled(sig) | Stopped`.
- Process.Process.SSignal: the text strsignal returns is not modelled; a signal is named by its number. Reading `_signal` before it was ever written is excluded by the requirement, as it is undefined.
- FdStream.IFdStream.FromFd, FdStream.OFdStream.FromFd: the openmode argument (fdstream.hpp:22, 79) is fixed at its default, `in` and `out` respectively. Other modes are not modelled.
- Glibc.MakeArgv, Glibc.Execv: an argument is passed whole. The `c_str()` pointer (glibc_wrapper.hpp:26) would end it at an embedded NUL character, and that cut is not modelled.
- FdStream.IFdStream.MoveAssign, FdStream.OFdStream.MoveAssign: self-move-assignment (`s = std::move(s)`) is not modelled. The requirement `src != this` excludes it, and every assignment in the model is between two distinct streams.
- Os.Kernel: nothing keeps descriptor numbers non-negative in a table given to the constructor. A table with key -1 would let `FromFd(-1)` open a filebuf; `pipe` only adds non-negative numbers, and the protocol only ever `dup2`s onto fd 0 and fd 1, but `Os.Dup2Table` itself does not reject a negative `newfd`.
- The errno value carried by a `system_error`. An error is the text naming the failed call.
- The conversion of variadic arguments to an initializer list. Arguments are a `seq<string>` throughout.
- `type_name`: the contents of `__PRETTY_FUNCTION__` are compiler-specific, so they are a parameter `wrapped`. A "void" that is not found, or a spelling too short to cut, is undefined behaviour and is excluded by the requirements.
- Checkers.DiffChecker: only the soundness direction is stated. Completeness is not claimed, because when both streams reach their end in the same round, the final comparison reads two unwritten chars.
- Glibc.Fork: the child's `_exit` and the parent's return are reported as values. The destructors the child skips are not modelled.
