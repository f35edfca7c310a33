/** Channel and EPollPoller as objects (include/Channel.h, src/Channel.cpp, src/EPollPoller.cpp). Every
    method that touches the records is tied to the operations of module Registry. */
module Reactor {
  import opened Kernel
  import opened Registry

  datatype Callback = OnClose | OnError | OnRead | OnWrite

  predicate Has(revents: Mask, event: Mask) {
    revents & event != 0
  }

  /** The order in which handleEventWithGuard calls the callbacks for a set of returned events. */
  function Dispatch(revents: Mask): seq<Callback> {
    Callbacks(Has(revents, EPOLLHUP) && !Has(revents, EPOLLIN), Has(revents, EPOLLERR),
              Has(revents, EPOLLIN | EPOLLPRI), Has(revents, EPOLLOUT))
  }

  function Callbacks(close: bool, error: bool, read: bool, write: bool): seq<Callback> {
    (if close then [OnClose] else []) + (if error then [OnError] else [])
    + (if read then [OnRead] else []) + (if write then [OnWrite] else [])
  }

  lemma CallbacksHave(close: bool, error: bool, read: bool, write: bool)
    ensures var cs := Callbacks(close, error, read, write);
            && (OnClose in cs <==> close) && (OnError in cs <==> error)
            && (OnRead in cs <==> read) && (OnWrite in cs <==> write)
  {
    var a := if close then [OnClose] else [];
    var b := if error then [OnError] else [];
    var c := if read then [OnRead] else [];
    var d := if write then [OnWrite] else [];
    var cs := Callbacks(close, error, read, write);
    assert cs == a + b + c + d;
    assert forall x :: x in cs <==> x in a || x in b || x in c || x in d;
  }

  lemma ReadMask(revents: Mask)
    ensures Has(revents, EPOLLIN | EPOLLPRI) <==> Has(revents, EPOLLIN) || Has(revents, EPOLLPRI)
  {
  }

  function Place(cb: Callback): nat {
    match cb
    case OnClose => 0
    case OnError => 1
    case OnRead => 2
    case OnWrite => 3
  }

  /** What handleEventWithGuard owes a set of returned events: a close for a hang-up with no ordinary data,
      an error for an error, a read for ordinary or urgent data, a write for room to write; each once, in
      this order, and nothing else. */
  ghost predicate Answers(revents: Mask, cbs: seq<Callback>) {
    && (OnClose in cbs <==> revents & EPOLLHUP != 0 && revents & EPOLLIN == 0)
    && (OnError in cbs <==> revents & EPOLLERR != 0)
    && (OnRead in cbs <==> revents & EPOLLIN != 0 || revents & EPOLLPRI != 0)
    && (OnWrite in cbs <==> revents & EPOLLOUT != 0)
    && (forall i, j :: 0 <= i < j < |cbs| ==> Place(cbs[i]) < Place(cbs[j]))
  }

  lemma CallbacksInOrder(close: bool, error: bool, read: bool, write: bool)
    ensures var cs := Callbacks(close, error, read, write);
            forall i, j :: 0 <= i < j < |cs| ==> Place(cs[i]) < Place(cs[j])
  {
  }

  lemma DispatchAnswers(revents: Mask)
    ensures Answers(revents, Dispatch(revents))
  {
    hide Callbacks, Place;
    CallbacksInOrder(Has(revents, EPOLLHUP) && !Has(revents, EPOLLIN), Has(revents, EPOLLERR),
                     Has(revents, EPOLLIN | EPOLLPRI), Has(revents, EPOLLOUT));
    ReadMask(revents);
    CallbacksHave(Has(revents, EPOLLHUP) && !Has(revents, EPOLLIN), Has(revents, EPOLLERR),
                  Has(revents, EPOLLIN | EPOLLPRI), Has(revents, EPOLLOUT));
  }

  /** The events leave no choice. */
  lemma {:induction false} AnswersAreUnique(revents: Mask, a: seq<Callback>, b: seq<Callback>)
    requires Answers(revents, a) && Answers(revents, b)
    ensures a == b
  {
    hide Answers;
    SameMembers(revents, a, b);
    SortedIsUnique(a, b);
  }

  lemma SameMembers(revents: Mask, a: seq<Callback>, b: seq<Callback>)
    requires Answers(revents, a) && Answers(revents, b)
    ensures forall cb :: cb in a <==> cb in b
    ensures forall i, j :: 0 <= i < j < |a| ==> Place(a[i]) < Place(a[j])
    ensures forall i, j :: 0 <= i < j < |b| ==> Place(b[i]) < Place(b[j])
  {
    forall cb: Callback
      ensures cb in a <==> cb in b
    {
      match cb
      case OnClose =>
      case OnError =>
      case OnRead =>
      case OnWrite =>
    }
  }

  lemma {:induction false} SortedIsUnique(a: seq<Callback>, b: seq<Callback>)
    requires forall cb :: cb in a <==> cb in b
    requires forall i, j :: 0 <= i < j < |a| ==> Place(a[i]) < Place(a[j])
    requires forall i, j :: 0 <= i < j < |b| ==> Place(b[i]) < Place(b[j])
    ensures a == b
  {
    assert (a != [] ==> a[0] in b) && (b != [] ==> b[0] in a);
    if a != [] {
      var i :| 0 <= i < |b| && b[i] == a[0];
      var j :| 0 <= j < |a| && a[j] == b[0];
      assert a[0] == b[0];
      forall cb
        ensures cb in a[1..] <==> cb in b[1..]
      {
        assert cb in a <==> cb == a[0] || cb in a[1..];
        assert cb in b <==> cb == b[0] || cb in b[1..];
        assert a[0] !in a[1..] && b[0] !in b[1..];
      }
      SortedIsUnique(a[1..], b[1..]);
      assert a == [a[0]] + a[1..] && b == [b[0]] + b[1..];
    }
  }

  /** Hang-up with urgent data and no ordinary data. */
  predicate HangUpWithUrgentOnly(revents: Mask) {
    Has(revents, EPOLLHUP) && Has(revents, EPOLLPRI) && !Has(revents, EPOLLIN)
  }

  /** One dispatch reports both a close and a read exactly for that combination of events. */
  lemma CloseAndReadTogetherIff(revents: Mask)
    ensures OnClose in Dispatch(revents) && OnRead in Dispatch(revents) <==> HangUpWithUrgentOnly(revents)
  {
    ReadMask(revents);
    CallbacksHave(Has(revents, EPOLLHUP) && !Has(revents, EPOLLIN), Has(revents, EPOLLERR),
                  Has(revents, EPOLLIN | EPOLLPRI), Has(revents, EPOLLOUT));
  }

  /** When a read is reported with no close before it, at most an error was reported earlier. */
  lemma OnlyErrorsBeforeRead(revents: Mask, i: nat)
    requires !HangUpWithUrgentOnly(revents) && i < |Dispatch(revents)| && Dispatch(revents)[i].OnRead?
    ensures forall k :: 0 <= k < i ==> Dispatch(revents)[k].OnError?
  {
    CloseAndReadTogetherIff(revents);
    assert OnRead in Dispatch(revents);
  }

  class Channel {
    const poller: EPollPoller  // reached through loop_
    const fd: int
    var events: Mask
    var revents: Mask
    var index: Index
    var tied: bool

    constructor (poller: EPollPoller, fd: int)
      ensures this.poller == poller && this.fd == fd
      ensures events == NONE_EVENT && revents == NONE_EVENT && index.New? && !tied
    {
      this.poller := poller;
      this.fd := fd;
      events, revents, index, tied := NONE_EVENT, NONE_EVENT, New, false;
    }

    function State(): ChannelState
      reads this
    {
      ChannelState(fd, events, index)
    }

    method Tie()
      modifies this`tied
      ensures tied
    {
      tied := true;
    }

    method EnableReading(ghost known: set<Channel>)
      requires this in known
      modifies this`events, this`index, poller
      ensures poller.Abs(known) == After(old(poller.Abs(known)), Ask(this, Request.EnableReading))
    {
      events := events | READ_EVENT;
      assert poller.Abs(known) == SetEvents(old(poller.Abs(known)), this, NewEvents(old(events), Request.EnableReading));
      UpdateSelf(known);
    }

    method DisableReading(ghost known: set<Channel>)
      requires this in known
      modifies this`events, this`index, poller
      ensures poller.Abs(known) == After(old(poller.Abs(known)), Ask(this, Request.DisableReading))
    {
      events := events & !READ_EVENT;
      assert poller.Abs(known) == SetEvents(old(poller.Abs(known)), this, NewEvents(old(events), Request.DisableReading));
      UpdateSelf(known);
    }

    method EnableWriting(ghost known: set<Channel>)
      requires this in known
      modifies this`events, this`index, poller
      ensures poller.Abs(known) == After(old(poller.Abs(known)), Ask(this, Request.EnableWriting))
    {
      events := events | WRITE_EVENT;
      assert poller.Abs(known) == SetEvents(old(poller.Abs(known)), this, NewEvents(old(events), Request.EnableWriting));
      UpdateSelf(known);
    }

    method DisableWriting(ghost known: set<Channel>)
      requires this in known
      modifies this`events, this`index, poller
      ensures poller.Abs(known) == After(old(poller.Abs(known)), Ask(this, Request.DisableWriting))
    {
      events := events & !WRITE_EVENT;
      assert poller.Abs(known) == SetEvents(old(poller.Abs(known)), this, NewEvents(old(events), Request.DisableWriting));
      UpdateSelf(known);
    }

    method DisableAll(ghost known: set<Channel>)
      requires this in known
      modifies this`events, this`index, poller
      ensures poller.Abs(known) == After(old(poller.Abs(known)), Ask(this, Request.DisableAll))
    {
      events := NONE_EVENT;
      assert poller.Abs(known) == SetEvents(old(poller.Abs(known)), this, NewEvents(old(events), Request.DisableAll));
      UpdateSelf(known);
    }

    method UpdateSelf(ghost known: set<Channel>)
      requires this in known
      modifies this`index, poller
      ensures poller.Abs(known) == Update(old(poller.Abs(known)), this)
    {
      poller.UpdateChannel(this, known);
    }

    method RemoveSelf(ghost known: set<Channel>)
      requires this in known
      modifies this`index, poller
      ensures poller.Abs(known) == After(old(poller.Abs(known)), Drop(this))
    {
      poller.RemoveChannel(this, known);
    }

    /** handleEvent: a tied channel calls nothing once its owner is gone. */
    method HandleEvent(ownerAlive: bool) returns (called: seq<Callback>)
      ensures if tied && !ownerAlive then called == [] else Answers(revents, called)
      ensures called == if tied && !ownerAlive then [] else Dispatch(revents)
    {
      if tied {
        if ownerAlive {
          called := HandleEventWithGuard();
        } else {
          called := [];
        }
      } else {
        called := HandleEventWithGuard();
      }
    }

    method HandleEventWithGuard() returns (called: seq<Callback>)
      ensures Answers(revents, called) && called == Dispatch(revents)
    {
      hide Answers, Has;
      DispatchAnswers(revents);
      called := [];
      if Has(revents, EPOLLHUP) && !Has(revents, EPOLLIN) {
        called := called + [OnClose];
      }
      if Has(revents, EPOLLERR) {
        called := called + [OnError];
      }
      if Has(revents, EPOLLIN | EPOLLPRI) {
        called := called + [OnRead];
      }
      if Has(revents, EPOLLOUT) {
        called := called + [OnWrite];
      }
      assert called == Dispatch(revents);
    }
  }

  class EPollPoller {
    var channels: map<int, Channel>
    var kernel: map<int, Interest<Channel>>
    var faults: nat

    constructor ()
      ensures channels == map[] && kernel == map[] && faults == 0
    {
      channels, kernel, faults := map[], map[], 0;
    }

    /** The records of this poller for the channels in `known`. */
    ghost function Abs(known: set<Channel>): Registry<Channel>
      reads this, known
    {
      Registry(map c | c in known :: c.State(), channels, kernel, faults)
    }

    method UpdateChannel(channel: Channel, ghost known: set<Channel>)
      requires channel in known
      modifies this, channel`index
      ensures Abs(known) == Update(old(Abs(known)), channel)
    {
      if channel.index.New? || channel.index.Deleted? {
        if channel.index.New? {
          channels := channels[channel.fd := channel];
        }
        channel.index := Added;
        EpollCtl(ADD, channel);
      } else {
        if channel.events == NONE_EVENT {
          EpollCtl(DEL, channel);
          channel.index := Deleted;
        } else {
          EpollCtl(MOD, channel);
        }
      }
    }

    method RemoveChannel(channel: Channel, ghost known: set<Channel>)
      requires channel in known
      modifies this, channel`index
      ensures Abs(known) == Remove(old(Abs(known)), channel)
    {
      channels := channels - {channel.fd};
      if channel.index.Added? {
        EpollCtl(DEL, channel);
      }
      channel.index := New;
    }

    /** EPollPoller::update. */
    method EpollCtl(op: CtlOp, channel: Channel)
      modifies this`kernel, this`faults
      ensures match Ctl(old(kernel), op, channel.fd, Interest(channel.events, channel))
              case None => kernel == old(kernel) && faults == old(faults) + 1
              case Some(k) => kernel == k && faults == old(faults)
    {
      match Ctl(kernel, op, channel.fd, Interest(channel.events, channel))
      case None => faults := faults + 1;
      case Some(k) => kernel := k;
    }

    predicate HasChannel(channel: Channel)
      reads this
    {
      channel.fd in channels && channels[channel.fd] == channel
    }

    /** poll: epoll_wait answers with some registered descriptors, each once, and their events; the
        active channels are theirs, in that order, all of them mapped and marked kAdded. */
    method Poll(ready: seq<(int, Mask)>, ghost known: set<Channel>) returns (active: seq<Channel>)
      requires Agree(Abs(known))
      requires forall i :: 0 <= i < |ready| ==> ready[i].0 in kernel
      requires forall i, j :: 0 <= i < j < |ready| ==> ready[i].0 != ready[j].0
      modifies set c | c in known :: c`revents
      ensures Abs(known) == old(Abs(known))
      ensures |active| == |ready|
      ensures forall i :: 0 <= i < |active| ==>
                && active[i] in known && HasChannel(active[i]) && active[i].index.Added?
                && active[i].fd == ready[i].0 && active[i].revents == ready[i].1
      ensures forall c :: c in known && c !in active ==> c.revents == old(c.revents)
    {
      active := [];
      ghost var records := Abs(known);
      var i := 0;
      while i < |ready|
        invariant 0 <= i <= |ready| && |active| == i
        invariant Abs(known) == records && kernel == records.kernel && channels == records.mapped
        invariant forall k :: 0 <= k < i ==>
                    && active[k] in known && HasChannel(active[k]) && active[k].index.Added?
                    && active[k].fd == ready[k].0 && active[k].revents == ready[k].1
        invariant forall c :: c in known && c !in active ==> c.revents == old(c.revents)
      {
        KernelEntryIsMapped(records, ready[i].0);
        var channel := kernel[ready[i].0].ptr;
        assert channel.State() == records.chans[channel];
        channel.revents := ready[i].1;
        active := active + [channel];
        i := i + 1;
      }
    }
  }
}
