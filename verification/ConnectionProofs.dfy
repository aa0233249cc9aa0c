/** What every handler keeps: open connections stay open or close exactly once, the
    output stream stays intact, and nothing else is touched. */
module ConnectionProofs {
  import opened Kernel
  import opened Polling
  import opened Connection

  ghost predicate Open(w: World) { IsOpen(w.conn, w.poller) }

  /** In the interest set. */
  ghost predicate Live(w: World) {
    w.conn.ch.index.Added? && w.conn.ch.addedToLoop && Registered(w.poller, w.conn.ch)
  }

  /** Only the mask changed, to `m`. */
  ghost predicate OnlyMask(w: World, w': World, m: Mask) {
    && w' == w.(conn := w.conn.(ch := w.conn.ch.(events := m)), poller := w'.poller)
    && SameElsewhere(w.poller, w'.poller, w.conn.ch.fd)
    && Live(w')
  }

  lemma MaskOfLive(w: World, m: Mask)
    requires Live(w) && !m.IsNone()
    ensures OnlyMask(w, SetMask(w, m), m)
  {
  }

  /** A handler that left the connection open. */
  ghost predicate StaysOpen(w: World, w': World) {
    Tame(w, w') && Open(w') && w'.base == w.base
  }

  /** A handler that closed the connection and told the base loop once. */
  ghost predicate Closes(w: World, w': World) {
    Tame(w, w') && IsClosed(w'.conn, w'.poller) && w'.base == w.base + [RemoveConnection(w.conn.ch.id)]
  }

  lemma TameTrans(a: World, b: World, c: World)
    requires Tame(a, b) && Tame(b, c)
    ensures Tame(a, c)
  {
  }

  // ---- Sending ------------------------------------------------------------------

  /** The connection after `send` took the first `n` bytes of `m` and queued the rest. */
  function Sent(c: Conn, m: Bytes, n: nat): Conn
    requires n <= |m|
  {
    var out := c.out + m[n..];
    c.(taken := c.taken + m[..n], out := out, accepted := c.accepted + m,
       ch := c.ch.(events := Mask(true, c.ch.events.write || n < |m|)))
  }

  /** Queueing the rest of a message behind what waits. */
  lemma EnqueueShape(w: World, rest: Bytes)
    requires Live(w)
    ensures var w' := Enqueue(w, rest);
            && w' == w.(conn := w.conn.(out := w.conn.out + rest, ch := w.conn.ch.(events := w.conn.ch.events.(write := true))),
                        poller := w'.poller)
            && SameElsewhere(w.poller, w'.poller, w.conn.ch.fd)
            && Live(w')
  {
  }

  lemma ElsewhereTrans(p: Poller, q: Poller, r: Poller, fd: Fd)
    requires SameElsewhere(p, q, fd) && SameElsewhere(q, r, fd)
    ensures SameElsewhere(p, r, fd)
  {
  }

  /** `send` in one line: with `n` bytes taken by a direct write (none if bytes were
      waiting), the rest is queued behind what waits and the mask is extended. */
  lemma SendShape(w: World, m: Bytes, r: WriteResult)
    requires Live(w) && w.conn.state.Connected? && Accepts(w.conn, r)
    ensures var w' := Send(w, m, r);
            var n := if WritesDirectly(w.conn) then Taken(r, |m|) else 0;
            && w' == w.(conn := Sent(w.conn, m, n), poller := w'.poller,
                        stats := w.stats.(kernelWritten := w.stats.kernelWritten + n))
            && SameElsewhere(w.poller, w'.poller, w.conn.ch.fd)
            && Live(w')
  {
    hide Registered, SetMask, Enqueue, SameElsewhere;
    var direct := WritesDirectly(w.conn);
    var n := if direct then Taken(r, |m|) else 0;
    var w1 := if direct then KernelTakes(w, m, n) else w;
    assert w.conn.taken + m[..0] == w.conn.taken;
    var w2 := w1.(conn := w1.conn.(accepted := w1.conn.accepted + m));
    assert w.conn.out + m[|m|..] == w.conn.out;
    if n < |m| { EnqueueShape(w2, m[n..]); }
    var w3 := if n < |m| then Enqueue(w2, m[n..]) else w2;
    MaskOfLive(w3, w3.conn.ch.events.(read := true));
    if n < |m| { ElsewhereTrans(w.poller, w3.poller, Send(w, m, r).poller, w.conn.ch.fd); }
  }

  /** A refused message changes nothing but the reading bit. */
  lemma RefusedShape(w: World, m: Bytes, r: WriteResult)
    requires Live(w) && !Accepts(w.conn, r)
    ensures var w' := Send(w, m, r);
            w' == w || (w.conn.state.Connected? && OnlyMask(w, w', w.conn.ch.events.(read := true)))
  {
  }

  /** The stream stays intact when a message overtakes nothing. */
  lemma StreamGrows(c: Conn, m: Bytes, n: nat)
    requires StreamIntact(c) && n <= |m| && (c.out == [] || n == 0)
    ensures StreamIntact(Sent(c, m, n))
  {
  }

  /** `send` on an open connection: the stream grows by the whole message or not at
      all, and the interest mask follows the buffer. */
  lemma SendKeepsOpen(w: World, o: Outgoing)
    requires Open(w)
    ensures var w' := CountedSend(w, o);
            && StaysOpen(w, w') && w'.own == w.own
            && w'.conn.state == w.conn.state
            && w'.conn.accepted == w.conn.accepted + (if Accepts(w.conn, o.result) then o.message else [])
  {
    var m, r := o.message, o.result;
    if Accepts(w.conn, r) {
      SendShape(w, m, r);
      StreamGrows(w.conn, m, if WritesDirectly(w.conn) then Taken(r, |m|) else 0);
    } else {
      RefusedShape(w, m, r);
      assert w.conn.accepted + [] == w.conn.accepted;
    }
  }

  lemma {:induction false} SendAllKeepsOpen(w: World, sends: seq<Outgoing>)
    requires Open(w)
    ensures StaysOpen(w, SendAll(w, sends)) && SendAll(w, sends).own == w.own
    decreases |sends|
  {
    if sends != [] {
      var w1 := CountedSend(w, sends[0]);
      SendKeepsOpen(w, sends[0]);
      SendAllKeepsOpen(w1, sends[1..]);
      TameTrans(w, w1, SendAll(w, sends));
    }
  }

  /** Whatever the application does in a callback, an open connection stays open. */
  lemma ReactKeepsOpen(w: World, r: Reaction)
    requires Open(w)
    ensures StaysOpen(w, React(w, r))
    ensures IsUp(React(w, r).conn.state)
  {
    SendAllKeepsOpen(w, r.sends);
    if r.close {
      assert React(w, r).own[|w.own|..] == [ForceClose(w.conn.ch.id)];
    }
  }

  /** A connection that is down accepts neither sends nor close requests. */
  lemma {:induction false} SendAllWhenDown(w: World, sends: seq<Outgoing>)
    requires !w.conn.state.Connected?
    ensures var w' := SendAll(w, sends);
            && w' == w.(stats := w'.stats)
            && w'.stats == w.stats.(sendLen := w'.stats.sendLen, sendNum := w'.stats.sendNum)
            && w.stats.sendLen <= w'.stats.sendLen
    decreases |sends|
  {
    if sends != [] {
      SendAllWhenDown(CountedSend(w, sends[0]), sends[1..]);
    }
  }

  // ---- Closing ------------------------------------------------------------------

  /** The registration fits the state well enough for `handleClose`. */
  ghost predicate Closable(w: World) {
    && IsUp(w.conn.state) && w.conn.tied && w.conn.closes == 0 && StreamIntact(w.conn) && w.conn.input == []
    && Live(w)
  }

  /** `handleClose` takes the DEL branch, leaves the interest set, and hands the
      connection to the base loop exactly once. */
  lemma CloseHandsOver(w: World)
    requires Closable(w)
    ensures Closes(w, HandleClose(w))
    ensures HandleClose(w).own == w.own && HandleClose(w).stats == w.stats
    ensures w.conn.ch.fd !in HandleClose(w).poller.kernel
  {
  }

  lemma CloseNowCloses(w: World)
    requires Closable(w)
    ensures Closes(w, CloseNow(w)) && CloseNow(w).own == w.own && CloseNow(w).stats == w.stats
  {
  }

  /** What one turn of a handler may do to an open connection. */
  ghost predicate Turns(w: World, w': World) {
    StaysOpen(w, w') || Closes(w, w')
  }

  lemma OpenThenTurns(a: World, b: World, c: World)
    requires StaysOpen(a, b) && Turns(b, c)
    ensures Turns(a, c)
    ensures Closes(b, c) ==> Closes(a, c)
  {
    TameTrans(a, b, c);
  }

  // ---- Events -------------------------------------------------------------------

  lemma ReadTurns(w: World, e: Env)
    requires Open(w)
    ensures Turns(w, HandleRead(w, e))
    ensures Closes(w, HandleRead(w, e)) <==> !(e.read.Read? && e.read.bytes != [])
  {
    hide CloseNow, React, SameElsewhere, Registered;
    if e.read.Read? && e.read.bytes != [] {
      var s := w.stats.(kernelRead := w.stats.kernelRead + |e.read.bytes|,
                        recvLen := w.stats.recvLen + |e.read.bytes|, recvNum := w.stats.recvNum + 1);
      var w1 := w.(stats := s);
      assert w.conn.input + e.read.bytes == e.read.bytes;
      assert HandleRead(w, e) == React(w1, e.reaction);
      ReactKeepsOpen(w1, e.reaction);
    } else {
      CloseNowCloses(w);
    }
  }

  /** A write event leaves the connection open or closes it, and never writes nothing. */
  lemma WriteTurns(w: World, r: WriteResult)
    requires Open(w)
    ensures Turns(w, HandleWrite(w, r))
  {
    if w.conn.ch.events.write {
      var n := Taken(r, |w.conn.out|);
      assert w.faults + {} == w.faults;
      if n == 0 {
        CloseNowCloses(w);
      } else {
        var w1 := KernelTakes(w, w.conn.out, n);
        var w2 := w1.(conn := w1.conn.(out := w1.conn.out[n..]));
        assert (w.conn.taken + w.conn.out[..n]) + w.conn.out[n..] == w.conn.taken + w.conn.out;
        assert StreamIntact(w2.conn);
        assert w2.own[|w.own|..] == [];
        if w2.conn.out == [] {
          var w3 := DisableWriting(w2);
          MaskOfLive(w2, w2.conn.ch.events.(write := false));
          assert StaysOpen(w, w3);
          if w3.conn.state.Disconnecting? {
            CloseHandsOver(w3);
            OpenThenTurns(w, w3, HandleWrite(w, r));
          }
        }
      }
    }
  }

  /** A closed connection ignores a write event: its mask is empty. */
  lemma WriteAfterClose(w: World, w': World, r: WriteResult)
    requires Closes(w, w')
    ensures HandleWrite(w', r) == w'
  {
  }

  /** One event leaves an open connection open, or closes it exactly once. */
  lemma EventTurns(w: World, r: Ready, e: Env)
    requires Open(w) && HupComesAlone(r)
    ensures Turns(w, HandleEvent(w, r, e))
  {
    if r.hup && !r.inp {
      CloseHandsOver(w);
    } else {
      var w2 := if r.inp || r.pri || r.rdhup then HandleRead(w, e) else w;
      if r.inp || r.pri || r.rdhup {
        ReadTurns(w, e);
      } else {
        assert w.own[|w.own|..] == [];
      }
      if r.out {
        if Closes(w, w2) {
          WriteAfterClose(w, w2, e.write);
        } else {
          WriteTurns(w2, e.write);
          OpenThenTurns(w, w2, HandleWrite(w2, e.write));
        }
      }
    }
  }

  /** The queued `forceCloseInLoop` closes an open connection and ignores one that is
      down already. */
  lemma ForceCloseTurns(w: World)
    requires Open(w) || w.conn.state.Disconnected?
    ensures if Open(w) then Closes(w, ForceCloseInLoop(w)) else ForceCloseInLoop(w) == w
    ensures ForceCloseInLoop(w).own == w.own
  {
  }

  // ---- Establishing and destroying ----------------------------------------------

  /** Between `enableWriting` and the last send of the connection callback. */
  ghost predicate Opening(w: World) {
    && w.conn.state.Connected? && w.conn.tied && w.conn.closes == 0 && StreamIntact(w.conn) && w.conn.input == []
    && w.conn.taken == [] && Live(w) && w.conn.ch.events.write
    && (w.conn.out != [] ==> w.conn.ch.events.read)
  }

  lemma {:induction false} SendAllWhileOpening(w: World, sends: seq<Outgoing>)
    requires Opening(w)
    ensures var w' := SendAll(w, sends);
            && Opening(w') && Tame(w, w') && w'.own == w.own && w'.base == w.base
            && (w'.conn.out != [] <==> w.conn.out != [] || exists i :: 0 <= i < |sends| && sends[i].message != [])
    decreases |sends|
  {
    assert w.own[|w.own|..] == [];
    if sends != [] {
      var m := sends[0].message;
      var w1 := CountedSend(w, sends[0]);
      SendShape(w, m, sends[0].result);
      StreamGrows(w.conn, m, 0);
      assert m[0..] == m;
      assert Opening(w1) && Tame(w, w1);
      SendAllWhileOpening(w1, sends[1..]);
      TameTrans(w, w1, SendAll(w, sends));
      var w' := SendAll(w, sends);
      if w'.conn.out != [] && w.conn.out == [] && m == [] {
        var i :| 0 <= i < |sends[1..]| && sends[1..][i].message != [];
        assert sends[i + 1].message != [];
      }
      if i :| 0 <= i < |sends| && sends[i].message != [] {
        if i > 0 { assert sends[1..][i - 1].message != []; }
      }
    }
  }

  /** `connectEstablished` opens the connection exactly when the connection callback
      sends something: the mask starts with writing only, `send` turns reading on, and
      an empty buffer with the writing bit set breaks the layering. */
  lemma EstablishOpens(w: World, r: Reaction)
    requires IsEmbryo(w.conn, w.poller)
    ensures var w' := ConnectEstablished(w, r);
            && Tame(w, w') && w'.base == w.base && IsUp(w'.conn.state)
            && (Open(w') <==> exists i :: 0 <= i < |r.sends| && r.sends[i].message != [])
  {
    hide Registered, SendAll;
    var w1 := SetState(w, Connected);
    var w2 := w1.(conn := w1.conn.(tied := true));
    SetEventsKeepsRegistration(w2.poller, w2.conn.ch, w2.conn.ch.events.(write := true));
    assert w.faults + {} == w.faults;
    var w3 := EnableWriting(w2);
    var w4 := w3.(stats := w3.stats.(numConn := w3.stats.numConn + 1));
    assert Opening(w4) && Tame(w, w4);
    SendAllWhileOpening(w4, r.sends);
    var w5 := SendAll(w4, r.sends);
    TameTrans(w, w4, w5);
    if r.close {
      assert React(w4, r).own[|w.own|..] == [ForceClose(w.conn.ch.id)];
    }
  }

  /** What an empty request would do: the connection comes up with the writing bit set
      and nothing to write, so its first write event writes zero bytes, and the zero it
      gets back is taken for the server's close. */
  lemma EmptyRequestLooksLikeClose(w: World, request: Bytes, first: WriteResult, r: WriteResult)
    requires IsEmbryo(w.conn, w.poller) && w.faults == {} && request == []
    ensures var w1 := ConnectEstablished(w, Reaction([Outgoing(request, first)], false));
            var w2 := HandleWrite(w1, r);
            && w1.conn.state.Connected? && w1.faults == {}
            && EmptyWrite in w2.faults && w2.conn.state.Disconnected? && w2.conn.closes == 1
  {
    var reaction := Reaction([Outgoing(request, first)], false);
    var w0 := SetState(Check(w, true, StateAssert), Connected);
    var wc := w0.(conn := w0.conn.(tied := true));
    SetEventsKeepsRegistration(wc.poller, wc.conn.ch, wc.conn.ch.events.(write := true));
    var we := EnableWriting(wc);
    var wn := we.(stats := we.stats.(numConn := we.stats.numConn + 1));
    assert Opening(wn);
    var w1 := CountedSend(wn, reaction.sends[0]);
    assert SendAll(wn, reaction.sends) == SendAll(w1, reaction.sends[1..]) == w1;
    SendShape(wn, request, first);
    assert Live(w1) && w1.conn.out == [] && w1.conn.ch.events.write;
  }

  /** `connectDestroyed` finds a closed connection silent, so it only unregisters. */
  lemma DestroyUnregisters(w: World)
    requires IsClosed(w.conn, w.poller)
    ensures var w' := ConnectDestroyed(w);
            && Tame(w, w') && IsGone(w'.conn, w'.poller) && w'.own == w.own && w'.base == w.base && w'.stats == w.stats
  {
  }

  // ---- The event that closes twice ----------------------------------------------

  /** Closing a closed connection again: `disableAll` re-adds the silent channel. */
  lemma ClosesAgain(w: World)
    requires IsClosed(w.conn, w.poller)
    ensures var w' := CloseNow(w);
            && w'.conn.closes == 2 && w'.base == w.base + [RemoveConnection(w.conn.ch.id)]
            && w.conn.ch.fd in w'.poller.kernel && w'.conn.ch.events.IsNone()
  {
  }

  /** Data that arrives after the close is counted and dropped. */
  lemma ReadsWhenClosed(w: World, e: Env)
    requires IsClosed(w.conn, w.poller) && e.read.Read? && e.read.bytes != []
    ensures var w' := HandleRead(w, e);
            w'.conn.closes == 1 && w'.base == w.base && w'.conn.ch == w.conn.ch && w'.conn.ch.events.IsNone()
  {
    var wm := w.(conn := w.conn.(input := e.read.bytes),
                 stats := w.stats.(kernelRead := w.stats.kernelRead + |e.read.bytes|));
    assert w.conn.input + e.read.bytes == e.read.bytes;
    var st := wm.stats.(recvLen := wm.stats.recvLen + |e.read.bytes|, recvNum := wm.stats.recvNum + 1);
    SendAllWhenDown(wm.(conn := wm.conn.(input := []), stats := st), e.reaction.sends);
  }

  /** Without the kernel's promise, `closeCallback_` fires twice for one event exactly
      when it carries HUP without IN, something that triggers the read branch, and the
      read brings nothing: `handleRead` sets kDisconnecting without looking. The second
      `disableAll` then puts the descriptor back into the interest set. */
  lemma DoubleCloseExactly(w: World, r: Ready, e: Env)
    requires Open(w)
    ensures var w' := HandleEvent(w, r, e);
            var twice := r.hup && !r.inp && (r.pri || r.rdhup) && !(e.read.Read? && e.read.bytes != []);
            && (w'.conn.closes >= 2 <==> twice)
            && (twice ==> w'.base == w.base + [RemoveConnection(w.conn.ch.id), RemoveConnection(w.conn.ch.id)]
                          && w.conn.ch.fd in w'.poller.kernel)
  {
    hide HandleClose, HandleRead, Tame, Registered;
    if HupComesAlone(r) {
      EventTurns(w, r, e);
    } else {
      CloseHandsOver(w);
      var w1 := HandleClose(w);
      var w2 := HandleRead(w1, e);
      if e.read.Read? && e.read.bytes != [] {
        ReadsWhenClosed(w1, e);
      } else {
        ClosesAgain(w1);
        ReadIsCloseNow(w1, e);
        SameIdentity(w, w1);
      }
      assert HandleEvent(w, r, e) == w2;
    }
  }

  lemma ReadIsCloseNow(w: World, e: Env)
    requires !(e.read.Read? && e.read.bytes != [])
    ensures HandleRead(w, e) == CloseNow(w)
  {
  }

  lemma SameIdentity(w: World, w': World)
    requires Tame(w, w')
    ensures w'.conn.ch.id == w.conn.ch.id && w'.conn.ch.fd == w.conn.ch.fd
  {
  }
}
