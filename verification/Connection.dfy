/** `TcpConnection` on values: what each handler does to the connection, to its loop's
    poller and to the two functor queues, with the callbacks of the application run
    inside as the source runs them. */
module Connection {
  import opened Kernel
  import opened Polling

  datatype State = Connecting | Connected | Disconnecting | Disconnected

  /** Position in the only order a connection's state may follow. */
  function Rank(s: State): nat {
    match s
    case Connecting => 0
    case Connected => 1
    case Disconnecting => 2
    case Disconnected => 3
  }

  /** `input` and `out` are the readable contents of `inputBuffer_` and
      `outputBuffer_`. The last three fields are history: the bytes the kernel took from
      this connection, the messages accepted for sending, and how often
      `closeCallback_` fired. */
  datatype Conn = Conn(ch: Chan, loop: nat, state: State, tied: bool, input: Bytes, out: Bytes,
                       taken: Bytes, accepted: Bytes, closes: nat)

  /** The benchmark's counters (`Http`), and what the kernel itself moved. */
  datatype Stats = Stats(numConn: nat, sendLen: nat, recvLen: nat, sendNum: nat, recvNum: nat,
                         kernelWritten: nat, kernelRead: nat)

  /** One handler at work: its connection, its loop's poller, what it queued on its own
      loop and on the base loop, the counters, and the faults so far. */
  datatype World = World(conn: Conn, poller: Poller, own: seq<Functor>, base: seq<Functor>,
                         stats: Stats, faults: set<Fault>)

  /** What the application does in a callback: sends, each with the kernel's answer to
      the direct write it may cause, then possibly `forceClose`. */
  datatype Outgoing = Outgoing(message: Bytes, result: WriteResult)
  datatype Reaction = Reaction(sends: seq<Outgoing>, close: bool)

  /** The kernel's answers during one event, and the application's reaction. */
  datatype Env = Env(read: ReadResult, write: WriteResult, reaction: Reaction)

  // ---- Channel and poller operations of a handler ------------------------------

  function Channel(w: World, o: Outcome): World {
    w.(conn := w.conn.(ch := o.chan), poller := o.poller, faults := w.faults + o.faults)
  }

  function SetMask(w: World, m: Mask): World {
    Channel(w, SetEvents(w.poller, w.conn.ch, m))
  }

  function EnableReading(w: World): World { SetMask(w, w.conn.ch.events.(read := true)) }

  function EnableWriting(w: World): World { SetMask(w, w.conn.ch.events.(write := true)) }

  function DisableWriting(w: World): World { SetMask(w, w.conn.ch.events.(write := false)) }

  function DisableAll(w: World): World { SetMask(w, NO_EVENTS) }

  function SetState(w: World, s: State): World { w.(conn := w.conn.(state := s)) }

  function Check(w: World, condition: bool, fault: Fault): World {
    w.(faults := w.faults + FaultIf(!condition, fault))
  }

  // ---- Sending ------------------------------------------------------------------

  /** `sendInLoop` writes directly only when nothing waits before the message. */
  predicate WritesDirectly(c: Conn) {
    !c.ch.events.write && c.out == []
  }

  /** Whether `send` takes the message: the connection is up and a direct write did not
      report EPIPE or ECONNRESET. */
  predicate Accepts(c: Conn, result: WriteResult) {
    c.state.Connected? && !(WritesDirectly(c) && result.Reset?)
  }

  /** The kernel takes the first `n` bytes of `data`. */
  function KernelTakes(w: World, data: Bytes, n: nat): World
    requires n <= |data|
  {
    w.(conn := w.conn.(taken := w.conn.taken + data[..n]),
       stats := w.stats.(kernelWritten := w.stats.kernelWritten + n))
  }

  /** The part of `sendInLoop` after the write attempt. */
  function Enqueue(w: World, rest: Bytes): World {
    var w1 := w.(conn := w.conn.(out := w.conn.out + rest));
    if w1.conn.ch.events.write then w1 else EnableWriting(w1)
  }

  /** `sendInLoop`. */
  function SendInLoop(w: World, message: Bytes, result: WriteResult): World {
    if w.conn.state.Disconnected? then w
    else
      var direct := WritesDirectly(w.conn);
      var n := if direct then Taken(result, |message|) else 0;
      var fault := direct && result.Reset?;
      var w1 := if direct then KernelTakes(w, message, n) else w;
      var w2 := if fault then w1 else w1.(conn := w1.conn.(accepted := w1.conn.accepted + message));
      var w3 := if !fault && n < |message| then Enqueue(w2, message[n..]) else w2;
      EnableReading(w3)
  }

  /** `send` from the owning loop. */
  function Send(w: World, message: Bytes, result: WriteResult): World {
    if w.conn.state.Connected? then SendInLoop(w, message, result) else w
  }

  // ---- Closing ------------------------------------------------------------------

  predicate IsUp(s: State) {
    s.Connected? || s.Disconnecting?
  }

  /** `forceClose` from the owning loop. */
  function RequestClose(w: World): World {
    if IsUp(w.conn.state) then
      SetState(w, Disconnecting).(own := w.own + [ForceClose(w.conn.ch.id)])
    else w
  }

  /** One `send` of the application, with the counters `Http` keeps beside it. */
  function CountedSend(w: World, o: Outgoing): World {
    var w' := Send(w, o.message, o.result);
    w'.(stats := w'.stats.(sendNum := w'.stats.sendNum + 1, sendLen := w'.stats.sendLen + |o.message|))
  }

  function SendAll(w: World, sends: seq<Outgoing>): World
    decreases |sends|
  {
    if sends == [] then w else SendAll(CountedSend(w, sends[0]), sends[1..])
  }

  function React(w: World, r: Reaction): World {
    var w' := SendAll(w, r.sends);
    if r.close then RequestClose(w') else w'
  }

  /** `Http::onConnection`. */
  function OnConnection(w: World, r: Reaction): World {
    if w.conn.state.Connected? then
      React(w.(stats := w.stats.(numConn := w.stats.numConn + 1)), r)
    else
      RequestClose(w)
  }

  /** `Http::onMessage`: count the readable bytes, drop them, react. */
  function OnMessage(w: World, r: Reaction): World {
    var s := w.stats.(recvLen := w.stats.recvLen + |w.conn.input|, recvNum := w.stats.recvNum + 1);
    React(w.(conn := w.conn.(input := []), stats := s), r)
  }

  const QUIET := Reaction([], false)

  /** `handleClose`. The connection callback finds the connection down. */
  function HandleClose(w: World): World {
    var w1 := Check(w, IsUp(w.conn.state), StateAssert);
    var w2 := OnConnection(DisableAll(SetState(w1, Disconnected)), QUIET);
    w2.(conn := w2.conn.(closes := w2.conn.closes + 1), base := w2.base + [RemoveConnection(w2.conn.ch.id)])
  }

  /** `forceCloseInLoop`. */
  function ForceCloseInLoop(w: World): World {
    if IsUp(w.conn.state) then HandleClose(w) else w
  }

  // ---- Events -------------------------------------------------------------------

  /** `setState(kDisconnecting); forceCloseInLoop();` */
  function CloseNow(w: World): World {
    ForceCloseInLoop(SetState(w, Disconnecting))
  }

  /** `handleRead`. */
  function HandleRead(w: World, e: Env): World {
    if e.read.Read? && e.read.bytes != [] then
      var s := w.stats.(kernelRead := w.stats.kernelRead + |e.read.bytes|);
      OnMessage(w.(conn := w.conn.(input := w.conn.input + e.read.bytes), stats := s), e.reaction)
    else
      CloseNow(w)
  }

  /** `handleWrite`. */
  function HandleWrite(w: World, result: WriteResult): World {
    if !w.conn.ch.events.write then w
    else
      var n := Taken(result, |w.conn.out|);
      var w0 := Check(w, w.conn.out != [], EmptyWrite);
      if n > 0 then
        var w1 := KernelTakes(w0, w.conn.out, n);
        var w2 := w1.(conn := w1.conn.(out := w1.conn.out[n..]));
        if w2.conn.out == [] then
          var w3 := DisableWriting(w2);
          if w3.conn.state.Disconnecting? then ForceCloseInLoop(w3) else w3
        else w2
      else
        CloseNow(w0)
  }

  /** `Channel::handleEventWithGuard`. `handleError` only reads the socket's error. */
  function HandleEvent(w: World, r: Ready, e: Env): World {
    var w1 := if r.hup && !r.inp then HandleClose(w) else w;
    var w2 := if r.inp || r.pri || r.rdhup then HandleRead(w1, e) else w1;
    if r.out then HandleWrite(w2, e.write) else w2
  }

  /** The kernel's promise about hang-ups that the handlers rely on. */
  predicate HupComesAlone(r: Ready) {
    r.hup && !r.inp ==> !r.pri && !r.rdhup
  }

  // ---- Life cycle ---------------------------------------------------------------

  /** The constructor. */
  function Fresh(id: ConnId, fd: Fd, loop: nat): Conn {
    Conn(Chan(id, fd, NO_EVENTS, New, false), loop, Connecting, false, [], [], [], [], 0)
  }

  /** `connectEstablished`. */
  function ConnectEstablished(w: World, r: Reaction): World {
    var w1 := SetState(Check(w, w.conn.state.Connecting?, StateAssert), Connected);
    OnConnection(EnableWriting(w1.(conn := w1.conn.(tied := true))), r)
  }

  /** `connectDestroyed`. */
  function ConnectDestroyed(w: World): World {
    var w1 := if w.conn.state.Connected? then OnConnection(DisableAll(SetState(w, Disconnected)), QUIET) else w;
    Channel(w1, Remove(w1.poller, w1.conn.ch))
  }

  // ---- Shapes between callbacks -------------------------------------------------

  /** Bytes taken followed by bytes waiting are the accepted messages, in order. */
  predicate StreamIntact(c: Conn) {
    c.taken + c.out == c.accepted
  }

  /** Constructed, not yet established. */
  predicate IsEmbryo(c: Conn, p: Poller) {
    c == Fresh(c.ch.id, c.ch.fd, c.loop) && Registered(p, c.ch)
  }

  /** Up: in the interest set, always reading, writing exactly while bytes wait. */
  predicate IsOpen(c: Conn, p: Poller) {
    && IsUp(c.state) && c.tied && c.closes == 0 && StreamIntact(c) && c.input == []
    && c.ch.index.Added? && c.ch.addedToLoop && Registered(p, c.ch)
    && c.ch.events.read
    && (c.ch.events.write <==> c.out != [])
  }

  /** Closed, still known to the poller but out of the interest set. */
  predicate IsClosed(c: Conn, p: Poller) {
    && c.state.Disconnected? && c.closes == 1 && StreamIntact(c) && c.input == []
    && c.ch.index.Deleted? && Registered(p, c.ch)
  }

  /** Destroyed: unknown to the poller, ready for the destructor. */
  predicate IsGone(c: Conn, p: Poller) {
    && c.state.Disconnected? && c.closes == 1 && StreamIntact(c) && c.input == []
    && c.ch.index.New? && !c.ch.addedToLoop && c.ch.events.IsNone() && Registered(p, c.ch)
  }

  // ---- What one handler leaves alone --------------------------------------------

  /** `fs` is any number of copies of one functor. */
  predicate AllAre(fs: seq<Functor>, f: Functor) {
    forall i :: 0 <= i < |fs| ==> fs[i] == f
  }

  /** What the kernel took and what still waits never grew by more than what was
      counted as sent, and every byte read was counted or still waits. */
  predicate Ledger(w: World, w': World) {
    && w'.stats.kernelWritten + |w'.conn.out| + w.stats.sendLen <= w.stats.kernelWritten + |w.conn.out| + w'.stats.sendLen
    && w'.stats.recvLen + |w'.conn.input| + w.stats.kernelRead == w.stats.recvLen + |w.conn.input| + w'.stats.kernelRead
  }

  /** The handler kept the connection's identity, touched no other descriptor of the
      poller, never moved the state back, only extended both streams, queued on its own loop nothing but this
      connection's force closes, kept the books, and raised no fault. */
  ghost predicate Tame(w: World, w': World) {
    && w'.conn.ch.id == w.conn.ch.id && w'.conn.ch.fd == w.conn.ch.fd && w'.conn.loop == w.conn.loop
    && SameElsewhere(w.poller, w'.poller, w.conn.ch.fd)
    && w.own <= w'.own && AllAre(w'.own[|w.own|..], ForceClose(w.conn.ch.id))
    && Rank(w.conn.state) <= Rank(w'.conn.state)
    && w.conn.taken <= w'.conn.taken && w.conn.accepted <= w'.conn.accepted
    && Ledger(w, w')
    && w'.faults == w.faults
  }
}
