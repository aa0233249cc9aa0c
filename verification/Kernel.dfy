/** The part of the operating system the reactor talks to: descriptors, the epoll
    interest set, and the results that `read` and `write` can return. */
module Kernel {
  datatype Option<+T> = None | Some(value: T)

  newtype Byte = b: int | 0 <= b < 256

  type Bytes = seq<Byte>

  type Fd = nat

  /** Identity of a connection object; it stands for the address of the object. */
  type ConnId = nat

  /** The two event groups a channel subscribes to: `kReadEvent` and `kWriteEvent`. */
  datatype Mask = Mask(read: bool, write: bool) {
    predicate IsNone() {
      !read && !write
    }
  }

  const NO_EVENTS := Mask(false, false)

  /** One entry of the epoll interest set: the mask and the `data.ptr` of the last
      successful ADD or MOD. */
  datatype Interest = Interest(events: Mask, ptr: ConnId)

  type InterestSet = map<Fd, Interest>

  datatype Operation = CtlAdd | CtlMod | CtlDel

  /** `epoll_ctl` succeeds on ADD exactly for a descriptor that is absent, and on MOD
      and DEL exactly for one that is present. */
  predicate CtlSucceeds(entries: InterestSet, op: Operation, fd: Fd) {
    op.CtlAdd? <==> fd !in entries
  }

  /** A failed call leaves the interest set alone. */
  function Ctl(entries: InterestSet, op: Operation, fd: Fd, entry: Interest): InterestSet {
    if !CtlSucceeds(entries, op, fd) then entries
    else if op.CtlDel? then entries - {fd}
    else entries[fd := entry]
  }

  /** The events one `epoll_wait` entry reports. */
  datatype Ready = Ready(ptr: ConnId, hup: bool, err: bool, inp: bool, pri: bool, rdhup: bool, out: bool)

  /** Outcome of `write`: how much was taken, or why nothing was. `Reset` stands for
      EPIPE and ECONNRESET. */
  datatype WriteResult = Wrote(n: nat) | WouldBlock | Reset | OtherError

  /** How many of `len` offered bytes a `write` takes. */
  function Taken(result: WriteResult, len: nat): (n: nat)
    ensures n <= len
  {
    if result.Wrote? && result.n <= len then result.n
    else if result.Wrote? then len
    else 0
  }

  /** Outcome of `readv`: the bytes moved (none means end of file), or an error. */
  datatype ReadResult = Read(bytes: Bytes) | ReadError

  /** The functors that travel between loops. Only `ForceClose` captures the
      connection as a raw pointer; the other three hold a strong reference. */
  datatype Functor =
    | Establish(conn: ConnId)
    | ForceClose(conn: ConnId)
    | RemoveConnection(conn: ConnId)
    | Destroy(conn: ConnId)
  {
    predicate IsStrong() {
      !ForceClose?
    }
  }

  /** Everything that would stop the program or silently go wrong: a failed assertion
      of the source, a failed `epoll_ctl`, or a use of a connection nobody owns. */
  datatype Fault =
    | StateAssert        // an assert on state_
    | ChannelMapAssert   // an assert on the poller's channels_ or on index_
    | NoneEventAssert    // isNoneEvent() in Channel::remove / EPoller::removeChannel
    | CtlFailed          // epoll_ctl returned an error
    | EmptyWrite         // handleWrite called write with length 0
    | DanglingUse        // a connection was used without a strong reference
    | OverwrittenEntry   // connections_[sockfd] already held a connection
    | EraseMissed        // connections_.erase did not remove this connection's entry
    | DestructorAssert   // an assert of ~TcpConnection or ~Channel
    | WrongLoop          // a functor ran on a loop it does not belong to
}
