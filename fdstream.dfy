/**
 * `ifdstream` and `ofdstream`: an istream or ostream over a stdio filebuf bound to a descriptor,
 * with a shadow copy of the descriptor number (`_M_fd`) that `fd()` reports. The filebuf is
 * abstracted to the descriptor it holds and whether it is open; the stream state to its failbit.
 */
module FdStream {
  import opened Os

  /** A `stdio_filebuf`: the descriptor it wraps (-1 when it has none) and whether it is open. */
  datatype FileBuf = FileBuf(fd: int, open: bool)

  const Unopened: FileBuf := FileBuf(-1, false)

  /** The filebuf built over `fd`: fdopen succeeds only on an open descriptor usable in the stream's direction. */
  function OpenFileBuf(accepted: bool, fd: int): FileBuf {
    if accepted then FileBuf(fd, true) else Unopened
  }

  /**
   * basic_filebuf::close(): fails on a filebuf that is not open; otherwise closes its descriptor,
   * reporting whether the kernel's close succeeded. Afterwards the filebuf is not open.
   */
  method CloseFileBuf(b: FileBuf, k: Kernel) returns (ok: bool)
    modifies k
    ensures k.pipes == old(k.pipes) && k.deathSignal == old(k.deathSignal)
    ensures !b.open ==> !ok && k.fds == old(k.fds) && k.log == old(k.log)
    ensures b.open ==> ok == (b.fd in old(k.fds)) && k.fds == CloseTable(old(k.fds), b.fd)
    ensures b.open ==> k.log == old(k.log) + [CloseCall(b.fd)]
  {
    if !b.open {
      return false;
    }
    var rc := k.Close(b.fd);
    ok := rc == 0;
  }

  /** The table once a stream whose filebuf was `b` has released it (destructor, move assignment). */
  function Released(t: FdTable, b: FileBuf): FdTable {
    if b.open then CloseTable(t, b.fd) else t
  }

  /** The log once a stream whose filebuf was `b` has released it. */
  function ReleasedLog(log: seq<Event>, b: FileBuf): seq<Event> {
    if b.open then log + [CloseCall(b.fd)] else log
  }

  class IFdStream {
    var buf: FileBuf      // _M_filebuf
    var shadowFd: int     // _M_fd
    var failed: bool      // failbit of the stream state

    function IsOpen(): bool reads this { buf.open }

    function Fd(): int reads this { shadowFd }

    constructor ()
      ensures buf == Unopened && shadowFd == -1 && !failed
    {
      buf := Unopened;
      shadowFd := -1;
      failed := false;
    }

    constructor FromFd(fd: int, k: Kernel)
      ensures buf == OpenFileBuf(Readable(k.fds, fd), fd) && shadowFd == fd && !failed
    {
      buf := OpenFileBuf(Readable(k.fds, fd), fd);
      shadowFd := fd;
      failed := false;
    }

    /** The move constructor: the filebuf moves out of `src`, the shadow descriptor is copied and stays in `src`. */
    constructor Move(src: IFdStream)
      modifies src
      ensures buf == old(src.buf) && shadowFd == old(src.shadowFd) && failed == old(src.failed)
      ensures src.buf == Unopened && src.shadowFd == old(src.shadowFd) && src.failed == old(src.failed)
    {
      buf := src.buf;
      shadowFd := src.shadowFd;
      failed := src.failed;
      new;
      src.buf := Unopened;
    }

    /**
     * Move assignment: the istream part swaps stream states, the filebuf assignment closes this
     * filebuf and takes over the source's, and the shadow descriptor is copied.
     */
    method MoveAssign(src: IFdStream, k: Kernel)
      requires src != this
      modifies this, src, k
      ensures buf == old(src.buf) && shadowFd == old(src.shadowFd) && failed == old(src.failed)
      ensures src.buf == Unopened && src.shadowFd == old(src.shadowFd) && src.failed == old(failed)
      ensures k.pipes == old(k.pipes) && k.deathSignal == old(k.deathSignal)
      ensures k.fds == Released(old(k.fds), old(buf)) && k.log == ReleasedLog(old(k.log), old(buf))
    {
      var f := failed;
      failed := src.failed;
      src.failed := f;
      var _ := CloseFileBuf(buf, k);
      buf := src.buf;
      src.buf := Unopened;
      shadowFd := src.shadowFd;
    }

    /** swap: exchanges stream states, filebufs and shadow descriptors. */
    method Swap(other: IFdStream)
      modifies this, other
      ensures buf == old(other.buf) && other.buf == old(buf)
      ensures shadowFd == old(other.shadowFd) && other.shadowFd == old(shadowFd)
      ensures failed == old(other.failed) && other.failed == old(failed)
    {
      var f := failed;
      failed := other.failed;
      other.failed := f;
      var b := buf;
      buf := other.buf;
      other.buf := b;
      var d := shadowFd;
      shadowFd := other.shadowFd;
      other.shadowFd := d;
    }

    /** close(): sets the failbit when the filebuf's close fails; the shadow descriptor is kept. */
    method Close(k: Kernel)
      modifies this, k
      ensures shadowFd == old(shadowFd) && !buf.open
      ensures failed == (old(failed) || !old(buf.open) || old(buf.fd) !in old(k.fds))
      ensures k.pipes == old(k.pipes) && k.deathSignal == old(k.deathSignal)
      ensures k.fds == Released(old(k.fds), old(buf)) && k.log == ReleasedLog(old(k.log), old(buf))
    {
      var ok := CloseFileBuf(buf, k);
      if buf.open {
        buf := Unopened;
      }
      if !ok {
        failed := true;
      }
    }

    /** The destructor: the filebuf's destructor closes it if it is still open. */
    method Destroy(k: Kernel)
      modifies this, k
      ensures !buf.open && shadowFd == old(shadowFd) && failed == old(failed)
      ensures k.pipes == old(k.pipes) && k.deathSignal == old(k.deathSignal)
      ensures k.fds == Released(old(k.fds), old(buf)) && k.log == ReleasedLog(old(k.log), old(buf))
    {
      var _ := CloseFileBuf(buf, k);
      if buf.open {
        buf := Unopened;
      }
    }
  }

  class OFdStream {
    var buf: FileBuf      // _M_filebuf
    var shadowFd: int     // _M_fd
    var failed: bool      // failbit of the stream state

    function IsOpen(): bool reads this { buf.open }

    function Fd(): int reads this { shadowFd }

    constructor ()
      ensures buf == Unopened && shadowFd == -1 && !failed
    {
      buf := Unopened;
      shadowFd := -1;
      failed := false;
    }

    constructor FromFd(fd: int, k: Kernel)
      ensures buf == OpenFileBuf(Writable(k.fds, fd), fd) && shadowFd == fd && !failed
    {
      buf := OpenFileBuf(Writable(k.fds, fd), fd);
      shadowFd := fd;
      failed := false;
    }

    constructor Move(src: OFdStream)
      modifies src
      ensures buf == old(src.buf) && shadowFd == old(src.shadowFd) && failed == old(src.failed)
      ensures src.buf == Unopened && src.shadowFd == old(src.shadowFd) && src.failed == old(src.failed)
    {
      buf := src.buf;
      shadowFd := src.shadowFd;
      failed := src.failed;
      new;
      src.buf := Unopened;
    }

    method MoveAssign(src: OFdStream, k: Kernel)
      requires src != this
      modifies this, src, k
      ensures buf == old(src.buf) && shadowFd == old(src.shadowFd) && failed == old(src.failed)
      ensures src.buf == Unopened && src.shadowFd == old(src.shadowFd) && src.failed == old(failed)
      ensures k.pipes == old(k.pipes) && k.deathSignal == old(k.deathSignal)
      ensures k.fds == Released(old(k.fds), old(buf)) && k.log == ReleasedLog(old(k.log), old(buf))
    {
      var f := failed;
      failed := src.failed;
      src.failed := f;
      var _ := CloseFileBuf(buf, k);
      buf := src.buf;
      src.buf := Unopened;
      shadowFd := src.shadowFd;
    }

    /** swap: exchanges stream states and filebufs, but each stream keeps its own shadow descriptor. */
    method Swap(other: OFdStream)
      modifies this, other
      ensures buf == old(other.buf) && other.buf == old(buf)
      ensures shadowFd == old(shadowFd) && other.shadowFd == old(other.shadowFd)
      ensures failed == old(other.failed) && other.failed == old(failed)
    {
      var f := failed;
      failed := other.failed;
      other.failed := f;
      var b := buf;
      buf := other.buf;
      other.buf := b;
    }

    method Close(k: Kernel)
      modifies this, k
      ensures shadowFd == old(shadowFd) && !buf.open
      ensures failed == (old(failed) || !old(buf.open) || old(buf.fd) !in old(k.fds))
      ensures k.pipes == old(k.pipes) && k.deathSignal == old(k.deathSignal)
      ensures k.fds == Released(old(k.fds), old(buf)) && k.log == ReleasedLog(old(k.log), old(buf))
    {
      var ok := CloseFileBuf(buf, k);
      if buf.open {
        buf := Unopened;
      }
      if !ok {
        failed := true;
      }
    }

    method Destroy(k: Kernel)
      modifies this, k
      ensures !buf.open && shadowFd == old(shadowFd) && failed == old(failed)
      ensures k.pipes == old(k.pipes) && k.deathSignal == old(k.deathSignal)
      ensures k.fds == Released(old(k.fds), old(buf)) && k.log == ReleasedLog(old(k.log), old(buf))
    {
      var _ := CloseFileBuf(buf, k);
      if buf.open {
        buf := Unopened;
      }
    }
  }

  /**
   * What `in = ifdstream(readFd); out = ofdstream(writeFd);` leaves, from the streams' filebufs
   * `inBuf` and `outBuf` and the kernel's table and log before (`t`, `log`) and after (`t'`,
   * `log'`): each move assignment first closes what the stream held, and each temporary's
   * destructor finds nothing left to close.
   */
  predicate Rebound(inp: IFdStream, out: OFdStream, readFd: int, writeFd: int, inBuf: FileBuf, outBuf: FileBuf,
                    t: FdTable, log: seq<Event>, t': FdTable, log': seq<Event>)
    reads inp, out
  {
    var t1 := Released(t, inBuf);
    && inp.buf == OpenFileBuf(Readable(t, readFd), readFd) && inp.shadowFd == readFd && !inp.failed
    && out.buf == OpenFileBuf(Writable(t1, writeFd), writeFd) && out.shadowFd == writeFd && !out.failed
    && t' == Released(t1, outBuf)
    && log' == ReleasedLog(ReleasedLog(log, inBuf), outBuf)
  }

  /** Move-assigns a stream over `readFd` into `inp`, then one over `writeFd` into `out`. */
  method Rebind(inp: IFdStream, out: OFdStream, k: Kernel, readFd: int, writeFd: int)
    modifies inp, out, k
    ensures Rebound(inp, out, readFd, writeFd, old(inp.buf), old(out.buf), old(k.fds), old(k.log), k.fds, k.log)
    ensures k.pipes == old(k.pipes) && k.deathSignal == old(k.deathSignal)
  {
    var i := new IFdStream.FromFd(readFd, k);
    inp.MoveAssign(i, k);
    i.Destroy(k);
    var o := new OFdStream.FromFd(writeFd, k);
    out.MoveAssign(o, k);
    o.Destroy(k);
  }

  /** Swapping two input streams twice restores both. */
  method SwapTwice(a: IFdStream, b: IFdStream)
    modifies a, b
    ensures a.buf == old(a.buf) && a.shadowFd == old(a.shadowFd) && a.failed == old(a.failed)
    ensures b.buf == old(b.buf) && b.shadowFd == old(b.shadowFd) && b.failed == old(b.failed)
  {
    a.Swap(b);
    a.Swap(b);
  }
}
