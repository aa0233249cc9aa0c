/** What the handlers do to an open connection, said without them: a reference of the
    output stream that knows neither poller nor mask nor state, and for every handler the
    relation between the states before and after it. */
module ConnectionEffects {
  import opened Kernel
  import opened Polling
  import opened Connection
  import opened ConnectionProofs

  // ---- The output as a plain stream ---------------------------------------------------

  /** What the peer was sent, what waits to be sent, and all that was accepted. */
  datatype Pipe = Pipe(taken: Bytes, waiting: Bytes, accepted: Bytes)

  function PipeOf(c: Conn): Pipe {
    Pipe(c.taken, c.out, c.accepted)
  }

  function Min(a: nat, b: nat): nat {
    if a <= b then a else b
  }

  /** A message offered to a pipe. Behind waiting bytes it waits too. An idle pipe passes
      on what the kernel takes at once and keeps the rest, or refuses the whole message
      when the peer has reset the connection. */
  function Offer(p: Pipe, o: Outgoing): Pipe {
    if p.waiting != [] then
      Pipe(p.taken, p.waiting + o.message, p.accepted + o.message)
    else
      match o.result
      case Reset => p
      case Wrote(n) =>
        var k := Min(n, |o.message|);
        Pipe(p.taken + o.message[..k], o.message[k..], p.accepted + o.message)
      case _ => Pipe(p.taken, o.message, p.accepted + o.message)
  }

  function OfferAll(p: Pipe, sends: seq<Outgoing>): Pipe
    decreases |sends|
  {
    if sends == [] then p else OfferAll(Offer(p, sends[0]), sends[1..])
  }

  /** The messages one after the other. */
  function Messages(sends: seq<Outgoing>): Bytes {
    if sends == [] then [] else sends[0].message + Messages(sends[1..])
  }

  /** A pipe loses and reorders nothing, and without a reset, or with bytes waiting, it
      accepts every message. */
  lemma {:induction false} PipeAcceptsInOrder(p: Pipe, sends: seq<Outgoing>)
    requires p.taken + p.waiting == p.accepted
    ensures var p' := OfferAll(p, sends);
            && p'.taken + p'.waiting == p'.accepted
            && p.taken <= p'.taken && p.accepted <= p'.accepted && |p'.accepted| <= |p.accepted| + |Messages(sends)|
            && (p.waiting != [] || (forall i :: 0 <= i < |sends| ==> !sends[i].result.Reset?)
                ==> p'.accepted == p.accepted + Messages(sends))
            && (p.waiting != [] ==> p'.waiting == p.waiting + Messages(sends) && p'.taken == p.taken)
    decreases |sends|
  {
    if sends == [] {
      assert p.accepted + [] == p.accepted && p.waiting + [] == p.waiting;
    } else {
      var m := sends[0].message;
      var p1 := Offer(p, sends[0]);
      assert p1.taken + p1.waiting == p1.accepted;
      PipeAcceptsInOrder(p1, sends[1..]);
      assert (p.accepted + m) + Messages(sends[1..]) == p.accepted + (m + Messages(sends[1..]));
      assert (p.waiting + m) + Messages(sends[1..]) == p.waiting + (m + Messages(sends[1..]));
    }
  }

  // ---- Callbacks ------------------------------------------------------------------------

  /** What a callback does: a connected connection's pipe is offered every message in
      turn, a close request moves an up connection on and queues its one functor, and the
      application's counters see every send. */
  predicate Reacted(w: World, w': World, r: Reaction) {
    && PipeOf(w'.conn) == (if w.conn.state.Connected? then OfferAll(PipeOf(w.conn), r.sends) else PipeOf(w.conn))
    && w'.conn.state == (if r.close && IsUp(w.conn.state) then Disconnecting else w.conn.state)
    && w'.own == w.own + (if r.close && IsUp(w.conn.state) then [ForceClose(w.conn.ch.id)] else [])
    && w'.base == w.base && w'.conn.closes == w.conn.closes
    && w'.conn.loop == w.conn.loop && w'.conn.ch.id == w.conn.ch.id && w'.conn.ch.fd == w.conn.ch.fd
    && |w.conn.taken| <= |w'.conn.taken|
    && w'.stats == w.stats.(sendNum := w.stats.sendNum + |r.sends|, sendLen := w.stats.sendLen + |Messages(r.sends)|,
                            kernelWritten := w.stats.kernelWritten + (|w'.conn.taken| - |w.conn.taken|))
  }

  /** One send on an open, connected connection is one offer to its pipe. */
  lemma SendOffers(w: World, o: Outgoing)
    requires Open(w) && w.conn.state.Connected?
    ensures var w' := CountedSend(w, o);
            && PipeOf(w'.conn) == Offer(PipeOf(w.conn), o)
            && |w.conn.taken| <= |w'.conn.taken| && w'.base == w.base && w'.conn.closes == w.conn.closes
            && w'.stats == w.stats.(sendNum := w.stats.sendNum + 1, sendLen := w.stats.sendLen + |o.message|,
                                    kernelWritten := w.stats.kernelWritten + (|w'.conn.taken| - |w.conn.taken|))
  {
    var m, r := o.message, o.result;
    if Accepts(w.conn, r) {
      SendShape(w, m, r);
      assert w.conn.taken + m[..0] == w.conn.taken && m[0..] == m && [] + m == m;
    } else {
      RefusedShape(w, m, r);
    }
  }

  lemma {:induction false} SendAllOffers(w: World, sends: seq<Outgoing>)
    requires Open(w)
    ensures Reacted(w, SendAll(w, sends), Reaction(sends, false))
    ensures Open(SendAll(w, sends))
    decreases |sends|
  {
    hide IsOpen, Send, Offer;
    assert w.own + [] == w.own;
    if sends != [] {
      var w1 := CountedSend(w, sends[0]);
      SendKeepsOpen(w, sends[0]);
      OpenIsUp(w);
      SendAllOffers(w1, sends[1..]);
      if w.conn.state.Connected? {
        SendOffers(w, sends[0]);
      } else {
        DownSend(w, sends[0]);
      }
    }
  }

  lemma OpenIsUp(w: World)
    requires Open(w)
    ensures IsUp(w.conn.state)
  {
  }

  lemma DownSend(w: World, o: Outgoing)
    requires !w.conn.state.Connected?
    ensures CountedSend(w, o) ==
            w.(stats := w.stats.(sendNum := w.stats.sendNum + 1, sendLen := w.stats.sendLen + |o.message|))
  {
  }

  /** Any callback on an open connection. */
  lemma ReactOffers(w: World, r: Reaction)
    requires Open(w)
    ensures Reacted(w, React(w, r), r)
  {
    hide SendAll, IsOpen;
    OpenIsUp(w);
    SendAllOffers(w, r.sends);
    SendAllKeepsOpen(w, r.sends);
    assert w.own + [] == w.own;
  }

  /** A connection that is not up ignores its application, which counts all the same. */
  lemma {:induction false} DownSendsAreCounted(w: World, sends: seq<Outgoing>)
    requires !w.conn.state.Connected?
    ensures SendAll(w, sends) ==
            w.(stats := w.stats.(sendNum := w.stats.sendNum + |sends|, sendLen := w.stats.sendLen + |Messages(sends)|))
    decreases |sends|
  {
    hide Send;
    if sends != [] {
      DownSend(w, sends[0]);
      DownSendsAreCounted(CountedSend(w, sends[0]), sends[1..]);
    }
  }

  lemma ReactWhenDown(w: World, r: Reaction)
    requires !IsUp(w.conn.state)
    ensures Reacted(w, React(w, r), r)
  {
    hide SendAll;
    DownSendsAreCounted(w, r.sends);
    assert w.own + [] == w.own;
  }

  /** A close request by itself, in any state. */
  lemma RequestReacts(w: World)
    ensures Reacted(w, RequestClose(w), Reaction([], true))
  {
    assert w.own + [] == w.own;
  }

  // ---- Events ---------------------------------------------------------------------------

  /** The message callback has been told of everything in the input buffer: the message
      and its bytes are counted and dropped. */
  function Emptied(w: World): World {
    w.(conn := w.conn.(input := []),
       stats := w.stats.(recvNum := w.stats.recvNum + 1, recvLen := w.stats.recvLen + |w.conn.input|))
  }

  /** The message callback: what it was told of, and then its answer. */
  ghost predicate Told(w: World, w': World, r: Reaction) {
    Open(Emptied(w)) ==> StaysOpen(Emptied(w), w') && Reacted(Emptied(w), w', r)
  }

  lemma MessageIsTold(w: World, r: Reaction)
    ensures Told(w, OnMessage(w, r), r)
  {
    hide React, IsOpen, Tame, Reacted;
    assert OnMessage(w, r) == React(Emptied(w), r);
    if Open(Emptied(w)) {
      ReactKeepsOpen(Emptied(w), r);
      ReactOffers(Emptied(w), r);
    }
  }

  /** Data was read: the message is counted, its bytes are gone, and the application
      reacted. */
  predicate Answered(w: World, w': World, bytes: Bytes, r: Reaction) {
    var st := w.stats.(recvNum := w.stats.recvNum + 1, recvLen := w.stats.recvLen + |bytes|,
                       kernelRead := w.stats.kernelRead + |bytes|);
    Reacted(w.(stats := st), w', r) && w'.conn.input == []
  }

  /** The connection closed, and nothing else happened. */
  ghost predicate Shut(w: World, w': World) {
    Closes(w, w') && PipeOf(w'.conn) == PipeOf(w.conn) && w'.own == w.own && w'.stats == w.stats
  }

  /** A write event: the kernel takes a prefix of what waits, the writing bit goes when
      nothing is left, and a connection that was only kept for its last bytes closes
      then. A write that takes nothing closes. Without anything waiting, nothing
      happens. */
  ghost predicate Flushed(w: World, w': World, result: WriteResult) {
    var out := w.conn.out;
    if out == [] then w' == w
    else if result.Wrote? && result.n > 0 then
      var k := Min(result.n, |out|);
      && PipeOf(w'.conn) == Pipe(w.conn.taken + out[..k], out[k..], w.conn.accepted)
      && w'.own == w.own
      && w'.stats == w.stats.(kernelWritten := w.stats.kernelWritten + k)
      && (if k == |out| && w.conn.state.Disconnecting? then Closes(w, w')
          else StaysOpen(w, w') && w'.conn.state == w.conn.state && w'.conn.ch.events == Mask(true, k < |out|))
    else Shut(w, w')
  }

  predicate HasData(e: Env) {
    e.read.Read? && e.read.bytes != []
  }

  predicate Reads(r: Ready) {
    r.inp || r.pri || r.rdhup
  }

  lemma CloseNowShuts(w: World)
    requires Closable(w)
    ensures Shut(w, CloseNow(w)) && Shut(w, HandleClose(w))
  {
    CloseNowCloses(w);
    CloseHandsOver(w);
  }

  /** A read event answers the message that came, or closes. */
  lemma ReadAnswers(w: World, e: Env)
    requires Open(w)
    ensures if HasData(e) then StaysOpen(w, HandleRead(w, e)) && Answered(w, HandleRead(w, e), e.read.bytes, e.reaction)
            else Shut(w, HandleRead(w, e))
  {
    hide CloseNow, HandleClose, React, SameElsewhere, Registered, Reacted;
    ReadTurns(w, e);
    if HasData(e) {
      var st := w.stats.(recvNum := w.stats.recvNum + 1, recvLen := w.stats.recvLen + |e.read.bytes|,
                         kernelRead := w.stats.kernelRead + |e.read.bytes|);
      var w1 := w.(stats := st);
      assert w.conn.input + e.read.bytes == e.read.bytes;
      assert HandleRead(w, e) == React(w1, e.reaction);
      ReactOffers(w1, e.reaction);
    } else {
      CloseNowShuts(w);
    }
  }

  /** After the kernel took `n` bytes of what waited, the mask follows the buffer. */
  lemma TakenShape(w: World, n: nat)
    requires Open(w) && 0 < n <= |w.conn.out|
    ensures var w1 := KernelTakes(w, w.conn.out, n);
            var w2 := w1.(conn := w1.conn.(out := w1.conn.out[n..]));
            var w' := if w2.conn.out == [] then DisableWriting(w2) else w2;
            && StaysOpen(w, w')
            && PipeOf(w'.conn) == Pipe(w.conn.taken + w.conn.out[..n], w.conn.out[n..], w.conn.accepted)
            && w'.own == w.own && w'.stats == w.stats.(kernelWritten := w.stats.kernelWritten + n)
            && w'.conn.state == w.conn.state && w'.conn.ch.events == Mask(true, n < |w.conn.out|)
            && w'.faults == w.faults
  {
    var w1 := KernelTakes(w, w.conn.out, n);
    var w2 := w1.(conn := w1.conn.(out := w1.conn.out[n..]));
    assert (w.conn.taken + w.conn.out[..n]) + w.conn.out[n..] == w.conn.taken + w.conn.out;
    assert w2.own[|w.own|..] == [];
    if w2.conn.out == [] { MaskOfLive(w2, w2.conn.ch.events.(write := false)); }
  }

  /** A write event flushes. */
  lemma WriteFlushes(w: World, r: WriteResult)
    requires Open(w)
    ensures Flushed(w, HandleWrite(w, r), r)
  {
    hide CloseNow, HandleClose, IsOpen, Tame, SetMask;
    OpenWrites(w);
    if w.conn.out != [] {
      assert Check(w, true, EmptyWrite) == w;
      var n := Taken(r, |w.conn.out|);
      if n > 0 {
        TakenShape(w, n);
        var w1 := KernelTakes(w, w.conn.out, n);
        var w2 := w1.(conn := w1.conn.(out := w1.conn.out[n..]));
        var w3 := if w2.conn.out == [] then DisableWriting(w2) else w2;
        if w2.conn.out == [] && w3.conn.state.Disconnecting? {
          OpenIsClosable(w3);
          CloseNowShuts(w3);
          OpenThenTurns(w, w3, HandleClose(w3));
        }
      } else {
        OpenIsClosable(w);
        CloseNowShuts(w);
      }
    }
  }

  lemma OpenWrites(w: World)
    requires Open(w)
    ensures w.conn.ch.events.write <==> w.conn.out != []
  {
  }

  lemma OpenIsClosable(w: World)
    requires Open(w)
    ensures Closable(w)
  {
  }

  /** What a read event brings an open connection. */
  ghost predicate ReadOutcome(w: World, w': World, e: Env) {
    Open(w) ==>
      if HasData(e) then StaysOpen(w, w') && Answered(w, w', e.read.bytes, e.reaction) else Shut(w, w')
  }

  lemma ReadHasOutcome(w: World, e: Env)
    ensures ReadOutcome(w, HandleRead(w, e), e)
  {
    hide HandleRead, IsOpen, StaysOpen, Answered, Shut;
    if Open(w) { ReadAnswers(w, e); }
  }

  /** What a write event brings an open connection. */
  ghost predicate WriteOutcome(w: World, w': World, result: WriteResult) {
    Open(w) ==> Flushed(w, w', result)
  }

  lemma WriteHasOutcome(w: World, r: WriteResult)
    ensures WriteOutcome(w, HandleWrite(w, r), r)
  {
    hide HandleWrite, IsOpen, Flushed;
    if Open(w) { WriteFlushes(w, r); }
  }

  /** The state between the read and the write half of an event that does not close
      first. */
  ghost predicate FirstHalf(w: World, m: World, r: Ready, e: Env) {
    if Reads(r) then HasData(e) && StaysOpen(w, m) && Answered(w, m, e.read.bytes, e.reaction) else m == w
  }

  ghost predicate SecondHalf(m: World, w': World, r: Ready, e: Env) {
    if r.out then Flushed(m, w', e.write) else w' == m
  }

  /** A whole event: a hang-up or an empty read closes; otherwise what was read is
      answered, and then what waits is flushed. */
  ghost predicate Served(w: World, w': World, r: Ready, e: Env) {
    if (r.hup && !r.inp) || (Reads(r) && !HasData(e)) then Shut(w, w')
    else exists m: World :: FirstHalf(w, m, r, e) && SecondHalf(m, w', r, e)
  }

  lemma EventIsServed(w: World, r: Ready, e: Env)
    requires Open(w) && HupComesAlone(r)
    ensures Served(w, HandleEvent(w, r, e), r, e)
  {
    hide IsOpen, Closes, StaysOpen, PipeOf, Answered, Flushed, HandleWrite, HandleRead, HandleClose;
    var m := if Reads(r) then HandleRead(w, e) else w;
    if r.hup && !r.inp {
      OpenIsClosable(w);
      CloseNowShuts(w);
      ShutIgnoresWrite(w, HandleClose(w), e.write);
    } else {
      if Reads(r) { ReadAnswers(w, e); }
      if Reads(r) && !HasData(e) {
        ShutIgnoresWrite(w, m, e.write);
      } else {
        HalvesMeet(w, m, r, e);
      }
    }
  }

  lemma ShutIgnoresWrite(w: World, w': World, r: WriteResult)
    requires Shut(w, w')
    ensures HandleWrite(w', r) == w'
  {
    WriteAfterClose(w, w', r);
  }

  lemma HalvesMeet(w: World, m: World, r: Ready, e: Env)
    requires Open(w) && FirstHalf(w, m, r, e)
    ensures SecondHalf(m, if r.out then HandleWrite(m, e.write) else m, r, e)
  {
    hide IsOpen, Flushed, HandleWrite, Answered, Tame;
    if r.out { WriteFlushes(m, e.write); }
  }

  // ---- The life cycle -------------------------------------------------------------------

  /** Established: counted, and everything the connection callback sent waits, because the
      mask already asks for writing and nothing is written directly. */
  predicate Established(w: World, w': World, r: Reaction) {
    && PipeOf(w'.conn) == Pipe([], Messages(r.sends), Messages(r.sends))
    && w'.conn.tied && w'.conn.state == (if r.close then Disconnecting else Connected)
    && w'.own == w.own + (if r.close then [ForceClose(w.conn.ch.id)] else [])
    && w'.base == w.base
    && w'.stats == w.stats.(numConn := w.stats.numConn + 1, sendNum := w.stats.sendNum + |r.sends|,
                            sendLen := w.stats.sendLen + |Messages(r.sends)|)
  }

  lemma {:induction false} OpeningQueues(w: World, sends: seq<Outgoing>)
    requires Opening(w)
    ensures var w' := SendAll(w, sends);
            && PipeOf(w'.conn) == Pipe([], w.conn.out + Messages(sends), w.conn.accepted + Messages(sends))
            && w'.conn.state == w.conn.state && w'.conn.tied && w'.own == w.own && w'.base == w.base
            && w'.stats == w.stats.(sendNum := w.stats.sendNum + |sends|,
                                    sendLen := w.stats.sendLen + |Messages(sends)|)
    decreases |sends|
  {
    hide Registered, SendInLoop, SameElsewhere, SetMask;
    if sends == [] {
      assert w.conn.out + [] == w.conn.out && w.conn.accepted + [] == w.conn.accepted;
    } else {
      var m := sends[0].message;
      var w1 := CountedSend(w, sends[0]);
      SendShape(w, m, sends[0].result);
      StreamGrows(w.conn, m, 0);
      assert m[0..] == m && m[..0] == [] && w.conn.taken + [] == [];
      OpeningQueues(w1, sends[1..]);
      assert (w.conn.out + m) + Messages(sends[1..]) == w.conn.out + (m + Messages(sends[1..]));
      assert (w.conn.accepted + m) + Messages(sends[1..]) == w.conn.accepted + (m + Messages(sends[1..]));
    }
  }

  /** `connectEstablished`, whatever the callback does. */
  lemma EstablishQueues(w: World, r: Reaction)
    requires IsEmbryo(w.conn, w.poller)
    ensures Established(w, ConnectEstablished(w, r), r)
  {
    hide Registered, SendAll;
    var w1 := SetState(w, Connected);
    var w2 := w1.(conn := w1.conn.(tied := true));
    SetEventsKeepsRegistration(w2.poller, w2.conn.ch, w2.conn.ch.events.(write := true));
    assert w.faults + {} == w.faults;
    var w3 := EnableWriting(w2);
    var w4 := w3.(stats := w3.stats.(numConn := w3.stats.numConn + 1));
    assert Opening(w4);
    OpeningQueues(w4, r.sends);
    SendAllWhileOpening(w4, r.sends);
    assert [] + Messages(r.sends) == Messages(r.sends) && w.own + [] == w.own;
  }

  /** A queued force close shuts an open connection, whatever still waits, and leaves a
      closed one alone. */
  lemma ForceCloseShuts(w: World)
    requires Open(w) || w.conn.state.Disconnected?
    ensures if Open(w) then Shut(w, ForceCloseInLoop(w)) else ForceCloseInLoop(w) == w
  {
    hide HandleClose;
    if Open(w) {
      OpenIsClosable(w);
      CloseNowShuts(w);
    }
  }
}
