/** `Channel` and `EPoller`: the kNew/kAdded/kDeleted machine against the kernel's
    interest set. The value functions say what each operation does to a channel and
    its poller; the classes below them update in place, as the source does. */
module Polling {
  import opened Kernel

  datatype Index = New | Added | Deleted

  /** The fields of a `Channel` that its poller reads or writes. */
  datatype Chan = Chan(id: ConnId, fd: Fd, events: Mask, index: Index, addedToLoop: bool)

  /** `channels_` of an `EPoller`, and the interest set of its epoll instance. */
  datatype Poller = Poller(channels: map<Fd, ConnId>, kernel: InterestSet)

  datatype Outcome = Outcome(chan: Chan, poller: Poller, faults: set<Fault>)

  predicate Maps(p: Poller, ch: Chan) {
    ch.fd in p.channels && p.channels[ch.fd] == ch.id
  }

  function FaultIf(bad: bool, fault: Fault): set<Fault> {
    if bad then {fault} else {}
  }

  /** `EPoller::update`. */
  function Control(p: Poller, ch: Chan, op: Operation): (Poller, set<Fault>) {
    (p.(kernel := Ctl(p.kernel, op, ch.fd, Interest(ch.events, ch.id))),
     FaultIf(!CtlSucceeds(p.kernel, op, ch.fd), CtlFailed))
  }

  /** `EPoller::updateChannel`. */
  function UpdateChannel(p: Poller, ch: Chan): Outcome {
    match ch.index
    case New =>
      var (p', f) := Control(p.(channels := p.channels[ch.fd := ch.id]), ch, CtlAdd);
      Outcome(ch.(index := Added), p', f + FaultIf(ch.fd in p.channels, ChannelMapAssert))
    case Deleted =>
      var (p', f) := Control(p, ch, CtlAdd);
      Outcome(ch.(index := Added), p', f + FaultIf(!Maps(p, ch), ChannelMapAssert))
    case Added =>
      var op := if ch.events.IsNone() then CtlDel else CtlMod;
      var (p', f) := Control(p, ch, op);
      Outcome(ch.(index := if ch.events.IsNone() then Deleted else Added), p',
              f + FaultIf(!Maps(p, ch), ChannelMapAssert))
  }

  /** `EPoller::removeChannel`. */
  function RemoveChannel(p: Poller, ch: Chan): Outcome {
    var p1 := p.(channels := p.channels - {ch.fd});
    var asserts := FaultIf(!Maps(p, ch) || ch.index.New?, ChannelMapAssert)
                   + FaultIf(!ch.events.IsNone(), NoneEventAssert);
    if ch.index.Added? then
      var (p', f) := Control(p1, ch, CtlDel);
      Outcome(ch.(index := New), p', f + asserts)
    else
      Outcome(ch.(index := New), p1, asserts)
  }

  /** `Channel::update` after the mask was set to `events`. */
  function SetEvents(p: Poller, ch: Chan, events: Mask): Outcome {
    UpdateChannel(p, ch.(events := events, addedToLoop := true))
  }

  /** `Channel::remove`. */
  function Remove(p: Poller, ch: Chan): Outcome {
    var o := RemoveChannel(p, ch.(addedToLoop := false));
    o.(faults := o.faults + FaultIf(!ch.events.IsNone(), NoneEventAssert))
  }

  // ---- What a registration means ------------------------------------------------

  /** A channel and its poller agree: kNew means unmapped, kAdded means mapped and in
      the interest set with the current mask, kDeleted means mapped only. */
  predicate Registered(p: Poller, ch: Chan) {
    match ch.index
    case New => ch.fd !in p.channels && ch.fd !in p.kernel
    case Added => Maps(p, ch) && ch.fd in p.kernel && p.kernel[ch.fd] == Interest(ch.events, ch.id)
    case Deleted => Maps(p, ch) && ch.fd !in p.kernel && ch.events.IsNone()
  }

  /** Two pollers agree on every descriptor but one. */
  ghost predicate SameElsewhere(p: Poller, p': Poller, fd: Fd) {
    && (forall f :: f != fd ==> (f in p'.channels <==> f in p.channels) && (f in p'.kernel <==> f in p.kernel))
    && (forall f :: f != fd && f in p.channels ==> p'.channels[f] == p.channels[f])
    && (forall f :: f != fd && f in p.kernel ==> p'.kernel[f] == p.kernel[f])
  }

  /** A consistent registration stays consistent through every mask change, no
      assertion fails and no `epoll_ctl` fails. The channel leaves the interest set
      exactly when an empty mask meets kAdded: clearing the mask of a channel that is
      already kDeleted puts it back with an empty mask. */
  lemma SetEventsKeepsRegistration(p: Poller, ch: Chan, events: Mask)
    requires Registered(p, ch)
    ensures var o := SetEvents(p, ch, events);
            && Registered(o.poller, o.chan) && o.faults == {} && SameElsewhere(p, o.poller, ch.fd)
            && Maps(o.poller, o.chan)
            && o.chan.events == events
            && (ch.fd in o.poller.kernel <==> !(events.IsNone() && ch.index.Added?))
            && (o.chan.index.Deleted? <==> events.IsNone() && ch.index.Added?)
  {
  }

  /** `remove` of a consistent, mapped, silent channel takes it out of both maps. */
  lemma RemoveUnregisters(p: Poller, ch: Chan)
    requires Registered(p, ch) && !ch.index.New? && ch.events.IsNone()
    ensures var o := Remove(p, ch);
            && Registered(o.poller, o.chan) && o.faults == {} && SameElsewhere(p, o.poller, ch.fd)
            && o.chan.index.New? && !o.chan.addedToLoop
  {
  }
}
