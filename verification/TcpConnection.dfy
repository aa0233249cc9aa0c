/** `TcpConnection` as an object over its channel, its loop's poller and its two
    buffers, with the benchmark's `Http` counting beside it. Every method does to the
    object's view exactly what the value function of the same name does. */
module TcpConnections {
  import opened Kernel
  import opened Polling
  import opened EPollers
  import C = Connection
  import opened ConnectionEffects
  import opened ConnectionProofs
  import opened Buffers
  import opened BufferObjects

  /** The counters of `Http`. The last two are the kernel's own. */
  class Http {
    var stats: C.Stats

    constructor ()
      ensures stats == C.Stats(0, 0, 0, 0, 0, 0, 0)
    {
      stats := C.Stats(0, 0, 0, 0, 0, 0, 0);
    }
  }

  class TcpConnection {
    const loop: nat
    const channel: Channel
    const inputBuffer: Buffer
    const outputBuffer: Buffer
    const http: Http
    var state: C.State
    var tied: bool
    var queued: seq<Functor>   // what this connection queued on its own loop
    var removed: seq<Functor>  // what its close callback queued on the base loop
    var closes: nat
    ghost var taken: Bytes
    ghost var accepted: Bytes

    ghost function Footprint(): set<object>
      reads this, inputBuffer, outputBuffer
    {
      {this, channel, channel.poller, http, inputBuffer, inputBuffer.buffer, outputBuffer, outputBuffer.buffer}
    }

    ghost predicate Valid()
      reads Footprint()
    {
      && inputBuffer != outputBuffer && inputBuffer.buffer != outputBuffer.buffer
      && inputBuffer.Valid() && outputBuffer.Valid() && channel.Consistent()
    }

    ghost function View(): C.World
      requires Valid()
      reads Footprint()
    {
      C.World(C.Conn(channel.View(), loop, state, tied, inputBuffer.View().Readable(), outputBuffer.View().Readable(),
                     taken, accepted, closes),
              channel.poller.View(), queued, removed, http.stats, {})
    }

    constructor (id: ConnId, sockfd: Fd, loop: nat, poller: EPoller, http: Http)
      requires sockfd !in poller.channels && sockfd !in poller.kernel
      ensures Valid() && View().conn == C.Fresh(id, sockfd, loop) && View().poller == poller.View()
      ensures channel.poller == poller && this.http == http && fresh(Footprint() - {poller, http})
      ensures queued == [] && removed == [] && C.IsEmbryo(View().conn, View().poller)
    {
      hide Buf.Readable, Zeros;
      this.loop := loop;
      this.http := http;
      channel := new Channel(id, sockfd, poller);
      inputBuffer := new Buffer(1024);
      outputBuffer := new Buffer(1024);
      state, tied, queued, removed, closes, taken, accepted := C.Connecting, false, [], [], 0, [], [];
    }

    // ---- Pieces of the handlers -----------------------------------------------------

    method SetMask(m: Mask)
      requires Valid()
      modifies channel, channel.poller
      ensures Valid() && View() == C.SetMask(old(View()), m)
    {
      channel.SetEvents(m);
    }

    /** The kernel takes the first `n` bytes of what `write` was given. */
    method Write(data: Bytes, result: WriteResult) returns (n: nat)
      requires Valid()
      modifies this`taken, http
      ensures Valid() && n == Taken(result, |data|) && View() == C.KernelTakes(old(View()), data, n)
    {
      n := Taken(result, |data|);
      taken := taken + data[..n];
      http.stats := http.stats.(kernelWritten := http.stats.kernelWritten + n);
    }

    method Enqueue(rest: Bytes)
      requires Valid()
      modifies channel, channel.poller, outputBuffer, outputBuffer.buffer
      ensures Valid() && fresh(Footprint() - old(Footprint())) && View() == C.Enqueue(old(View()), rest)
    {
      outputBuffer.Append(rest);
      if !channel.events.write {
        SetMask(channel.events.(write := true));
      }
    }

    // ---- Sending --------------------------------------------------------------------

    /** The direct write, which only an idle connection tries. */
    method TryWrite(message: Bytes, result: WriteResult) returns (nwrote: nat, faultError: bool)
      requires Valid()
      modifies this`taken, http
      ensures Valid() && nwrote <= |message|
      ensures var direct := C.WritesDirectly(old(View()).conn);
              && nwrote == (if direct then Taken(result, |message|) else 0)
              && faultError == (direct && result.Reset?)
              && View() == if direct then C.KernelTakes(old(View()), message, nwrote) else old(View())
    {
      nwrote, faultError := 0, false;
      var waiting := outputBuffer.ReadableBytes();
      if !channel.events.write && waiting == 0 {
        nwrote := Write(message, result);
        faultError := result.Reset?;
      }
    }

    method SendInLoop(message: Bytes, result: WriteResult)
      requires Valid()
      modifies this`taken, this`accepted, http, channel, channel.poller, outputBuffer, outputBuffer.buffer
      ensures Valid() && fresh(Footprint() - old(Footprint())) && View() == C.SendInLoop(old(View()), message, result)
    {
      hide C.Enqueue, C.SetMask, C.KernelTakes, C.WritesDirectly, Buf.Readable, Buf.Valid, Registered;
      if state.Disconnected? {
        return;
      }
      var nwrote, faultError := TryWrite(message, result);
      if !faultError {
        accepted := accepted + message;
      }
      if !faultError && nwrote < |message| {
        Enqueue(message[nwrote..]);
      }
      SetMask(channel.events.(read := true));
    }

    method Send(message: Bytes, result: WriteResult)
      requires Valid()
      modifies this`taken, this`accepted, http, channel, channel.poller, outputBuffer, outputBuffer.buffer
      ensures Valid() && fresh(Footprint() - old(Footprint())) && View() == C.Send(old(View()), message, result)
      ensures Open(old(View())) && old(state).Connected? ==>
                PipeOf(View().conn) == Offer(PipeOf(old(View()).conn), C.Outgoing(message, result))
    {
      hide C.SendInLoop, Offer, C.IsOpen;
      if Open(View()) && state.Connected? {
        SendOffers(View(), C.Outgoing(message, result));
      }
      if state.Connected? {
        SendInLoop(message, result);
      }
    }

    // ---- Closing --------------------------------------------------------------------

    method ForceClose()
      requires Valid()
      modifies this`state, this`queued
      ensures Valid() && View() == C.RequestClose(old(View()))
      ensures Reacted(old(View()), View(), C.Reaction([], true))
    {
      RequestReacts(View());
      if state.Connected? || state.Disconnecting? {
        state := C.Disconnecting;
        queued := queued + [Functor.ForceClose(channel.id)];
      }
    }

    /** A `send` of the application, with `Http`'s counters. */
    method CountedSend(o: C.Outgoing)
      requires Valid()
      modifies this`taken, this`accepted, http, channel, channel.poller, outputBuffer, outputBuffer.buffer
      ensures Valid() && fresh(Footprint() - old(Footprint())) && View() == C.CountedSend(old(View()), o)
    {
      hide C.Send, Buf.Readable, Buf.Valid, Registered;
      Send(o.message, o.result);
      http.stats := http.stats.(sendNum := http.stats.sendNum + 1, sendLen := http.stats.sendLen + |o.message|);
    }

    /** What the application does in a callback. */
    method React(r: C.Reaction)
      requires Valid()
      modifies this`taken, this`accepted, this`state, this`queued, http, channel, channel.poller, outputBuffer, outputBuffer.buffer
      ensures Valid() && fresh(Footprint() - old(Footprint())) && View() == C.React(old(View()), r)
      ensures Open(old(View())) ==> Reacted(old(View()), View(), r)
    {
      hide C.CountedSend, Buf.Readable, Buf.Valid, Registered, Reacted, C.IsOpen;
      if Open(View()) { ReactOffers(View(), r); }
      ghost var goal := C.SendAll(View(), r.sends);
      var i := 0;
      while i < |r.sends|
        invariant i <= |r.sends| && Valid() && fresh(Footprint() - old(Footprint()))
        invariant C.SendAll(View(), r.sends[i..]) == goal
      {
        assert r.sends[i..][1..] == r.sends[i + 1..];
        CountedSend(r.sends[i]);
        i := i + 1;
      }
      if r.close {
        ForceClose();
      }
    }

    /** `Http::onConnection`. */
    method OnConnection(r: C.Reaction)
      requires Valid()
      modifies this`taken, this`accepted, this`state, this`queued, http, channel, channel.poller, outputBuffer, outputBuffer.buffer
      ensures Valid() && fresh(Footprint() - old(Footprint())) && View() == C.OnConnection(old(View()), r)
    {
      hide C.React, Buf.Readable, Buf.Valid, Registered;
      if state.Connected? {
        http.stats := http.stats.(numConn := http.stats.numConn + 1);
        React(r);
      } else {
        ForceClose();
      }
    }

    /** `Http::onMessage`. */
    method OnMessage(r: C.Reaction)
      requires Valid()
      modifies this`taken, this`accepted, this`state, this`queued, http, channel, channel.poller, outputBuffer, outputBuffer.buffer, inputBuffer
      ensures Valid() && fresh(Footprint() - old(Footprint())) && View() == C.OnMessage(old(View()), r)
      ensures Told(old(View()), View(), r)
    {
      hide C.React, Registered, Told, Reacted;
      MessageIsTold(View(), r);
      var n := inputBuffer.ReadableBytes();
      http.stats := http.stats.(recvLen := http.stats.recvLen + n, recvNum := http.stats.recvNum + 1);
      inputBuffer.RetrieveAll();
      React(r);
    }

    /** `handleClose`: its assertion on the state is the precondition. */
    method HandleClose()
      requires Valid() && C.IsUp(state)
      modifies this`state, this`queued, this`closes, this`removed, this`taken, this`accepted, http, channel, channel.poller, outputBuffer, outputBuffer.buffer
      ensures Valid() && fresh(Footprint() - old(Footprint())) && View() == C.HandleClose(old(View()))
    {
      hide C.OnConnection, C.SetMask, Buf.Readable, Buf.Valid, Registered;
      assert old(View()).faults + {} == {};
      state := C.Disconnected;
      SetMask(NO_EVENTS);
      OnConnection(C.QUIET);
      closes := closes + 1;
      removed := removed + [RemoveConnection(channel.id)];
    }

    method ForceCloseInLoop()
      requires Valid()
      modifies this`state, this`queued, this`closes, this`removed, this`taken, this`accepted, http, channel, channel.poller, outputBuffer, outputBuffer.buffer
      ensures Valid() && fresh(Footprint() - old(Footprint())) && View() == C.ForceCloseInLoop(old(View()))
    {
      hide C.HandleClose, Registered;
      if state.Connected? || state.Disconnecting? {
        HandleClose();
      }
    }

    // ---- Events -----------------------------------------------------------------------

    method CloseNow()
      requires Valid()
      modifies this`state, this`queued, this`closes, this`removed, this`taken, this`accepted, http, channel, channel.poller, outputBuffer, outputBuffer.buffer
      ensures Valid() && fresh(Footprint() - old(Footprint())) && View() == C.CloseNow(old(View()))
    {
      hide C.ForceCloseInLoop, Registered;
      state := C.Disconnecting;
      ForceCloseInLoop();
    }

    method HandleRead(e: C.Env)
      requires Valid() && (e.read.Read? ==> |e.read.bytes| <= ReadLimit(inputBuffer.View()))
      modifies Footprint()
      ensures Valid() && fresh(Footprint() - old(Footprint())) && View() == C.HandleRead(old(View()), e)
      ensures ReadOutcome(old(View()), View(), e)
    {
      hide C.CloseNow, C.OnMessage, Registered, Buf.Readable, Buf.Valid, ReadOutcome;
      ReadHasOutcome(View(), e);
      ghost var before := View().conn.input;
      var n := inputBuffer.ReadFd(e.read);
      assert before + [] == before;
      if n > 0 {
        http.stats := http.stats.(kernelRead := http.stats.kernelRead + n);
        OnMessage(e.reaction);
      } else {
        CloseNow();
      }
    }

    /** `handleWrite`, which never has an empty buffer to write. */
    method HandleWrite(result: WriteResult)
      requires Valid() && (channel.events.write ==> View().conn.out != [])
      modifies this`state, this`queued, this`closes, this`removed, this`taken, this`accepted, http, channel, channel.poller, outputBuffer, outputBuffer.buffer
      ensures Valid() && fresh(Footprint() - old(Footprint())) && View() == C.HandleWrite(old(View()), result)
      ensures WriteOutcome(old(View()), View(), result)
    {
      hide C.CloseNow, C.ForceCloseInLoop, C.SetMask, Registered, Buf.Readable, Buf.Valid, WriteOutcome;
      WriteHasOutcome(View(), result);
      assert old(View()).faults + {} == {};
      if channel.events.write {
        var data := outputBuffer.Peek();
        var n := Write(data, result);
        assert old(taken) + data[..0] == old(taken);
        if n > 0 {
          outputBuffer.Retrieve(n);
          var waiting := outputBuffer.ReadableBytes();
          if waiting == 0 {
            SetMask(channel.events.(write := false));
            if state.Disconnecting? {
              ForceCloseInLoop();
            }
          }
        } else {
          CloseNow();
        }
      }
    }

    /** `handleEventWithGuard` on an open connection. */
    method HandleEvent(r: Ready, e: C.Env)
      requires Valid() && Open(View()) && C.HupComesAlone(r)
      requires e.read.Read? ==> |e.read.bytes| <= ReadLimit(inputBuffer.View())
      modifies Footprint()
      ensures Valid() && fresh(Footprint() - old(Footprint())) && View() == C.HandleEvent(old(View()), r, e)
      ensures Served(old(View()), View(), r, e)
      ensures Turns(old(View()), View())
    {
      hide C.HandleClose, C.HandleRead, C.HandleWrite, Registered, Buf.Readable, Buf.Valid, C.Tame, C.IsClosed, Served;
      EventIsServed(View(), r, e);
      EventTurns(View(), r, e);
      if r.hup && !r.inp {
        CloseHandsOver(View());
        HandleClose();
      }
      if r.inp || r.pri || r.rdhup {
        ReadTurns(View(), e);
        HandleRead(e);
      }
      if r.out {
        WantsOnlyWhatWaits(View());
        HandleWrite(e.write);
      }
    }

    // ---- Life cycle -------------------------------------------------------------------

    method ConnectEstablished(r: C.Reaction)
      requires Valid() && C.IsEmbryo(View().conn, View().poller)
      modifies Footprint()
      ensures Valid() && fresh(Footprint() - old(Footprint())) && View() == C.ConnectEstablished(old(View()), r)
      ensures Established(old(View()), View(), r)
      ensures Open(View()) <==> exists i :: 0 <= i < |r.sends| && r.sends[i].message != []
    {
      hide C.OnConnection, C.SetMask, Registered, Buf.Readable, Buf.Valid, Open, Established;
      EstablishQueues(View(), r);
      EstablishOpens(View(), r);
      assert old(View()).faults + {} == {};
      state := C.Connected;
      tied := true;
      SetMask(channel.events.(write := true));
      OnConnection(r);
    }

    method ConnectDestroyed()
      requires Valid() && C.IsClosed(View().conn, View().poller)
      modifies Footprint()
      ensures Valid() && fresh(Footprint() - old(Footprint())) && View() == C.ConnectDestroyed(old(View()))
      ensures C.IsGone(View().conn, View().poller)
    {
      DestroyUnregisters(View());
      channel.Remove();
    }
  }

  /** An open or freshly closed connection has something to write if it wants to. */
  lemma WantsOnlyWhatWaits(w: C.World)
    requires Open(w) || C.IsClosed(w.conn, w.poller)
    ensures w.conn.ch.events.write ==> w.conn.out != []
  {
  }
}
