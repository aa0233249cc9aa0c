/** `Channel` and `EPoller` as objects: the mask, the index and the two maps change in
    place, exactly as the value functions of `Polling` say. */
module EPollers {
  import opened Kernel
  import opened Polling

  class EPoller {
    var channels: map<Fd, Channel>
    var kernel: InterestSet  // of the epoll instance

    constructor ()
      ensures View() == Poller(map[], map[])
    {
      channels, kernel := map[], map[];
    }

    ghost function View(): Poller
      reads this
    {
      Poller(map fd | fd in channels :: channels[fd].id, kernel)
    }

    /** `channels_[fd] == channel`. */
    predicate Has(ch: Channel)
      reads this
    {
      ch.fd in channels && channels[ch.fd] == ch
    }

    /** `epoll_ctl`. */
    method Control(op: Operation, ch: Channel)
      requires CtlSucceeds(kernel, op, ch.fd)
      modifies `kernel
      ensures View() == Polling.Control(old(View()), ch.View(), op).0
    {
      if op.CtlDel? {
        kernel := kernel - {ch.fd};
      } else {
        kernel := kernel[ch.fd := Interest(ch.events, ch.id)];
      }
    }

    /** A consistent registration makes every assertion of the source hold. */
    method UpdateChannel(ch: Channel)
      requires ch.index.New? ==> ch.fd !in channels && ch.fd !in kernel
      requires !ch.index.New? ==> Has(ch) && (ch.fd in kernel <==> ch.index.Added?)
      modifies this, ch`index
      ensures var o := Polling.UpdateChannel(old(View()), old(ch.View()));
              View() == o.poller && ch.View() == o.chan && o.faults == {}
      ensures Has(ch)
    {
      if ch.index.New? || ch.index.Deleted? {
        if ch.index.New? {
          assert ch.fd !in channels;
          channels := channels[ch.fd := ch];
        } else {
          assert Has(ch);
        }
        ch.index := Added;
        Control(CtlAdd, ch);
      } else {
        assert Has(ch);
        if ch.events.IsNone() {
          Control(CtlDel, ch);
          ch.index := Deleted;
        } else {
          Control(CtlMod, ch);
        }
      }
    }

    method RemoveChannel(ch: Channel)
      requires Has(ch) && ch.events.IsNone() && !ch.index.New? && (ch.fd in kernel <==> ch.index.Added?)
      modifies this, ch`index
      ensures var o := Polling.RemoveChannel(old(View()), old(ch.View()));
              View() == o.poller && ch.View() == o.chan && o.faults == {}
      ensures ch.fd !in channels
    {
      channels := channels - {ch.fd};
      if ch.index.Added? {
        Control(CtlDel, ch);
      }
      ch.index := New;
    }
  }

  class Channel {
    const id: ConnId
    const fd: Fd
    const poller: EPoller  // its loop's
    var events: Mask
    var index: Index
    var addedToLoop: bool

    constructor (id: ConnId, fd: Fd, poller: EPoller)
      ensures View() == Chan(id, fd, NO_EVENTS, New, false) && this.poller == poller
    {
      this.id, this.fd, this.poller := id, fd, poller;
      events, index, addedToLoop := NO_EVENTS, New, false;
    }

    ghost function View(): Chan
      reads this
    {
      Chan(id, fd, events, index, addedToLoop)
    }

    /** The channel and its poller agree about it. */
    ghost predicate Consistent()
      reads this, poller
    {
      Registered(poller.View(), View()) && (!index.New? ==> poller.Has(this))
    }

    /** `Channel::update` after `events_` changed. */
    method SetEvents(m: Mask)
      requires Consistent()
      modifies this, poller
      ensures Consistent() && !index.New?
      ensures var o := Polling.SetEvents(old(poller.View()), old(View()), m);
              View() == o.chan && poller.View() == o.poller && o.faults == {}
    {
      SetEventsKeepsRegistration(poller.View(), View(), m);
      events := m;
      addedToLoop := true;
      poller.UpdateChannel(this);
    }

    method EnableReading()
      requires Consistent()
      modifies this, poller
      ensures Consistent() && events == old(events).(read := true)
      ensures var o := Polling.SetEvents(old(poller.View()), old(View()), old(events).(read := true));
              View() == o.chan && poller.View() == o.poller && o.faults == {}
    {
      SetEvents(events.(read := true));
    }

    method EnableWriting()
      requires Consistent()
      modifies this, poller
      ensures Consistent() && events == old(events).(write := true)
      ensures var o := Polling.SetEvents(old(poller.View()), old(View()), old(events).(write := true));
              View() == o.chan && poller.View() == o.poller && o.faults == {}
    {
      SetEvents(events.(write := true));
    }

    method DisableWriting()
      requires Consistent()
      modifies this, poller
      ensures Consistent() && events == old(events).(write := false)
      ensures var o := Polling.SetEvents(old(poller.View()), old(View()), old(events).(write := false));
              View() == o.chan && poller.View() == o.poller && o.faults == {}
    {
      SetEvents(events.(write := false));
    }

    /** From kAdded this leaves the interest set; from kDeleted it re-enters it. */
    method DisableAll()
      requires Consistent()
      modifies this, poller
      ensures Consistent() && events == NO_EVENTS
      ensures fd in poller.kernel <==> !old(index).Added?
      ensures var o := Polling.SetEvents(old(poller.View()), old(View()), NO_EVENTS);
              View() == o.chan && poller.View() == o.poller && o.faults == {}
    {
      SetEventsKeepsRegistration(poller.View(), View(), NO_EVENTS);
      SetEvents(NO_EVENTS);
    }

    /** `Channel::remove`. */
    method Remove()
      requires Consistent() && !index.New? && events.IsNone()
      modifies this, poller
      ensures Consistent() && index.New? && !addedToLoop
      ensures var o := Polling.Remove(old(poller.View()), old(View()));
              View() == o.chan && poller.View() == o.poller && o.faults == {}
    {
      RemoveUnregisters(poller.View(), View());
      addedToLoop := false;
      poller.RemoveChannel(this);
    }
  }
}
