/** The records that say whether a channel is watched: its own index_, the poller's channels_ map and
    the kernel's interest set (src/EPollPoller.cpp). Channels are named by a type C. */
module Registry {
  import opened Kernel

  const NONE_EVENT: Mask := 0
  const READ_EVENT: Mask := EPOLLIN | EPOLLPRI
  const WRITE_EVENT: Mask := EPOLLOUT

  predicate IsWriting(m: Mask) { m & WRITE_EVENT != 0 }

  predicate IsReading(m: Mask) { m & READ_EVENT != 0 }

  /** kNew, kAdded and kDeleted: -1, 1 and 2 in the source. */
  datatype Index = New | Added | Deleted

  datatype ChannelState = ChannelState(fd: int, events: Mask, index: Index)

  /** chans: the channels and their fields; mapped: channels_; kernel: the epoll set;
      faults: how many epoll_ctl calls the kernel has refused. */
  datatype Registry<C> = Registry(
    chans: map<C, ChannelState>, mapped: map<int, C>, kernel: map<int, Interest<C>>, faults: nat)

  // ------------------------------------------------------------------ EPollPoller's operations

  /** EPollPoller::update: one epoll_ctl call for channel c. */
  function Control<C>(r: Registry<C>, op: CtlOp, c: C): Registry<C>
    requires c in r.chans
  {
    var ch := r.chans[c];
    match Ctl(r.kernel, op, ch.fd, Interest(ch.events, c))
    case None => r.(faults := r.faults + 1)
    case Some(kernel) => r.(kernel := kernel)
  }

  function Update<C>(r: Registry<C>, c: C): (s: Registry<C>)
    requires c in r.chans
    ensures s.chans.Keys == r.chans.Keys
  {
    var ch := r.chans[c];
    if ch.index.New? || ch.index.Deleted? then
      var mapped := if ch.index.New? then r.mapped[ch.fd := c] else r.mapped;
      Control(r.(chans := r.chans[c := ch.(index := Added)], mapped := mapped), ADD, c)
    else if ch.events == NONE_EVENT then
      var s := Control(r, DEL, c);
      s.(chans := s.chans[c := ch.(index := Deleted)])
    else
      Control(r, MOD, c)
  }

  function Remove<C>(r: Registry<C>, c: C): (s: Registry<C>)
    requires c in r.chans
    ensures s.chans.Keys == r.chans.Keys
  {
    var ch := r.chans[c];
    var unmapped := r.(mapped := r.mapped - {ch.fd});
    var s := if ch.index.Added? then Control(unmapped, DEL, c) else unmapped;
    s.(chans := s.chans[c := ch.(index := New)])
  }

  // ------------------------------------------------------------------ Channel's operations

  datatype Request = EnableReading | DisableReading | EnableWriting | DisableWriting | DisableAll

  function NewEvents(events: Mask, q: Request): Mask {
    match q
    case EnableReading => events | READ_EVENT
    case DisableReading => events & !READ_EVENT
    case EnableWriting => events | WRITE_EVENT
    case DisableWriting => events & !WRITE_EVENT
    case DisableAll => NONE_EVENT
  }

  function SetEvents<C>(r: Registry<C>, c: C, events: Mask): (s: Registry<C>)
    requires c in r.chans
    ensures s.chans.Keys == r.chans.Keys
  {
    r.(chans := r.chans[c := r.chans[c].(events := events)])
  }

  datatype Op<C> = Ask(c: C, q: Request) | Drop(c: C)

  function After<C>(r: Registry<C>, op: Op<C>): (s: Registry<C>)
    requires op.c in r.chans
    ensures s.chans.Keys == r.chans.Keys
  {
    match op
    case Ask(c, q) => Update(SetEvents(r, c, NewEvents(r.chans[c].events, q)), c)
    case Drop(c) => Remove(r, c)
  }

  /** Each request changes the two interests exactly as its name says. */
  lemma RequestsMeanWhatTheySay(m: Mask)
    ensures IsReading(NewEvents(m, EnableReading)) && IsWriting(NewEvents(m, EnableReading)) == IsWriting(m)
    ensures !IsReading(NewEvents(m, DisableReading)) && IsWriting(NewEvents(m, DisableReading)) == IsWriting(m)
    ensures IsWriting(NewEvents(m, EnableWriting)) && IsReading(NewEvents(m, EnableWriting)) == IsReading(m)
    ensures !IsWriting(NewEvents(m, DisableWriting)) && IsReading(NewEvents(m, DisableWriting)) == IsReading(m)
    ensures !IsReading(NewEvents(m, DisableAll)) && !IsWriting(NewEvents(m, DisableAll))
    ensures NewEvents(m, EnableReading) & EPOLLIN != 0 && NewEvents(m, EnableReading) & EPOLLPRI != 0
    ensures NewEvents(m, DisableReading) & EPOLLIN == 0 && NewEvents(m, DisableReading) & EPOLLPRI == 0
    ensures NewEvents(m, EnableWriting) & EPOLLOUT != 0 && NewEvents(m, DisableWriting) & EPOLLOUT == 0
    ensures NewEvents(m, DisableAll) == 0
  {
  }

  // ------------------------------------------------------------------ agreement

  predicate IsMapped<C(==)>(r: Registry<C>, c: C)
    requires c in r.chans
  {
    r.chans[c].fd in r.mapped && r.mapped[r.chans[c].fd] == c
  }

  predicate InKernel<C(==)>(r: Registry<C>, c: C)
    requires c in r.chans
  {
    r.chans[c].fd in r.kernel && r.kernel[r.chans[c].fd].ptr == c
  }

  /** One channel's three records agree. */
  predicate ChannelAgrees<C(==)>(r: Registry<C>, c: C)
    requires c in r.chans
  {
    var ch := r.chans[c];
    && (ch.index.New? <==> !IsMapped(r, c))
    && (ch.index.Deleted? <==> IsMapped(r, c) && !InKernel(r, c))
    && (ch.index.Added? <==> IsMapped(r, c) && InKernel(r, c))
    && (InKernel(r, c) ==> r.kernel[ch.fd].mask == ch.events)
  }

  /** All records agree, nothing is recorded for an unknown channel or under a wrong descriptor, and
      the kernel has never refused a request. */
  ghost predicate Agree<C>(r: Registry<C>) {
    && r.faults == 0
    && (forall c :: c in r.chans ==> ChannelAgrees(r, c))
    && (forall fd :: fd in r.mapped ==> r.mapped[fd] in r.chans && r.chans[r.mapped[fd]].fd == fd)
    && (forall fd :: fd in r.kernel ==> fd in r.mapped && r.kernel[fd].ptr == r.mapped[fd])
  }

  /** What the kernel watches is a mapped channel, marked kAdded, under its own descriptor. */
  lemma KernelEntryIsMapped<C>(r: Registry<C>, fd: int)
    requires Agree(r) && fd in r.kernel
    ensures var c := r.kernel[fd].ptr;
            && fd in r.mapped && r.mapped[fd] == c && c in r.chans
            && r.chans[c].fd == fd && r.chans[c].index.Added?
  {
    assert ChannelAgrees(r, r.mapped[fd]);
  }

  /** A channel that is not yet registered must find its descriptor free. */
  predicate Clear<C>(r: Registry<C>, c: C)
    requires c in r.chans
  {
    r.chans[c].index.New? ==> r.chans[c].fd !in r.mapped
  }

  /** Registering or re-registering a channel keeps the records in agreement exactly when the channel
      is already registered or its descriptor is not in channels_; otherwise the kernel refuses the
      ADD, or a channel waiting as kDeleted loses its map entry. */
  lemma UpdateKeepsAgreementIff<C>(r: Registry<C>, c: C, events: Mask)
    requires c in r.chans && Agree(r)
    ensures Agree(Update(SetEvents(r, c, events), c)) <==> Clear(r, c)
  {
    assert ChannelAgrees(r, c);
    if Clear(r, c) {
      UpdateAgrees(r, c, events);
    } else {
      var s := Update(SetEvents(r, c, events), c);
      var d := r.mapped[r.chans[c].fd];
      assert ChannelAgrees(r, d);
      assert d in s.chans && s.chans[d] == r.chans[d] && d != c;
      assert Agree(s) ==> ChannelAgrees(s, d);
    }
  }

  /** The other channels' records, and the maps, after an update. */
  lemma UpdateKeepsOthers<C>(r: Registry<C>, c: C, events: Mask, d: C)
    requires c in r.chans && Agree(r) && Clear(r, c) && d in r.chans && d != c
    ensures var s := Update(SetEvents(r, c, events), c); d in s.chans && ChannelAgrees(s, d)
  {
    assert ChannelAgrees(r, c) && ChannelAgrees(r, d);
  }

  lemma UpdateKeepsMaps<C>(r: Registry<C>, c: C, events: Mask)
    requires c in r.chans && Agree(r) && Clear(r, c)
    ensures var s := Update(SetEvents(r, c, events), c);
            && s.faults == 0 && c in s.chans && ChannelAgrees(s, c)
            && (forall fd :: fd in s.mapped ==> s.mapped[fd] in s.chans && s.chans[s.mapped[fd]].fd == fd)
            && (forall fd :: fd in s.kernel ==> fd in s.mapped && s.kernel[fd].ptr == s.mapped[fd])
  {
    assert ChannelAgrees(r, c);
  }

  lemma UpdateAgrees<C>(r: Registry<C>, c: C, events: Mask)
    requires c in r.chans && Agree(r) && Clear(r, c)
    ensures Agree(Update(SetEvents(r, c, events), c))
  {
    hide Update, ChannelAgrees;
    var s := Update(SetEvents(r, c, events), c);
    UpdateKeepsMaps(r, c, events);
    forall d | d in s.chans
      ensures ChannelAgrees(s, d)
    {
      if d != c {
        UpdateKeepsOthers(r, c, events, d);
      }
    }
  }

  /** Removal is by descriptor: it keeps agreement under the same condition, for otherwise it erases
      the entry of another channel. */
  lemma DropKeepsAgreementIff<C>(r: Registry<C>, c: C)
    requires c in r.chans && Agree(r)
    ensures Agree(After(r, Drop(c))) <==> Clear(r, c)
  {
    var s := After(r, Drop(c));
    assert ChannelAgrees(r, c);
    if Clear(r, c) {
      forall d | d in s.chans
        ensures ChannelAgrees(s, d)
      {
        assert ChannelAgrees(r, d);
      }
    } else {
      var d := r.mapped[r.chans[c].fd];
      assert ChannelAgrees(r, d);
      assert d in s.chans && s.chans[d] == r.chans[d] && d != c;
      assert Agree(s) ==> ChannelAgrees(s, d);
    }
  }

  // ------------------------------------------------------------------ whole runs

  function Run<C>(r: Registry<C>, ops: seq<Op<C>>): (s: Registry<C>)
    requires forall i :: 0 <= i < |ops| ==> ops[i].c in r.chans
    ensures s.chans.Keys == r.chans.Keys
  {
    if ops == [] then r else After(Run(r, ops[..|ops| - 1]), ops[|ops| - 1])
  }

  /** No channel is registered yet and no two have the same descriptor. */
  ghost predicate Initial<C>(r: Registry<C>) {
    && r.mapped == map[] && r.kernel == map[] && r.faults == 0
    && (forall c :: c in r.chans ==> r.chans[c].index.New?)
    && (forall c, d :: c in r.chans && d in r.chans && r.chans[c].fd == r.chans[d].fd ==> c == d)
  }

  lemma DescriptorsAreFixed<C>(r: Registry<C>, op: Op<C>, c: C)
    requires op.c in r.chans && c in r.chans
    ensures After(r, op).chans[c].fd == r.chans[c].fd
  {
  }

  /** After any sequence of enable, disable and remove calls over channels with distinct descriptors
      the three records agree, and no epoll_ctl call has been refused. */
  lemma {:induction false} RunAgrees<C>(r: Registry<C>, ops: seq<Op<C>>)
    requires Initial(r)
    requires forall i :: 0 <= i < |ops| ==> ops[i].c in r.chans
    ensures Agree(Run(r, ops))
    ensures forall c :: c in r.chans ==> Run(r, ops).chans[c].fd == r.chans[c].fd
  {
    if ops != [] {
      var prefix, op := ops[..|ops| - 1], ops[|ops| - 1];
      RunAgrees(r, prefix);
      var before := Run(r, prefix);
      forall c | c in r.chans
        ensures After(before, op).chans[c].fd == r.chans[c].fd
      {
        DescriptorsAreFixed(before, op, c);
      }
      assert Clear(before, op.c) by {
        assert ChannelAgrees(before, op.c);
      }
      match op
      case Ask(c, q) => UpdateKeepsAgreementIff(before, c, NewEvents(before.chans[c].events, q));
      case Drop(c) => DropKeepsAgreementIff(before, c);
    }
  }

  /** The events channel c wants after these operations: those of its own requests, one on top of the other. */
  function Wanted<C(==)>(first: Mask, ops: seq<Op<C>>, c: C): Mask {
    if ops == [] then first
    else
      var before, op := Wanted(first, ops[..|ops| - 1], c), ops[|ops| - 1];
      if op.Ask? && op.c == c then NewEvents(before, op.q) else before
  }

  /** The last of these operations on channel c was a request, not a removal. */
  predicate Registered<C(==)>(ops: seq<Op<C>>, c: C) {
    ops != [] && if ops[|ops| - 1].c == c then ops[|ops| - 1].Ask? else Registered(ops[..|ops| - 1], c)
  }

  /** The poller and the kernel do for channel c what it wants: while it is registered it is mapped, and
      watched for exactly its events if it has any; when it is not, neither knows it. */
  predicate Honoured<C(==)>(r: Registry<C>, c: C, registered: bool)
    requires c in r.chans
  {
    && IsMapped(r, c) == registered
    && (InKernel(r, c) ==> registered && r.kernel[r.chans[c].fd].mask == r.chans[c].events)
    && (registered && r.chans[c].events != NONE_EVENT ==> InKernel(r, c))
  }

  lemma OwnOpIsHonoured<C>(r: Registry<C>, op: Op<C>, registered: bool)
    requires op.c in r.chans && Agree(r) && Clear(r, op.c) && Honoured(r, op.c, registered)
    ensures Honoured(After(r, op), op.c, op.Ask?)
    ensures After(r, op).chans[op.c].events == if op.Ask? then NewEvents(r.chans[op.c].events, op.q) else r.chans[op.c].events
  {
    assert ChannelAgrees(r, op.c);
  }

  lemma OtherOpIsHonoured<C>(r: Registry<C>, op: Op<C>, c: C, registered: bool)
    requires op.c in r.chans && Agree(r) && Clear(r, op.c) && c in r.chans && c != op.c && Honoured(r, c, registered)
    ensures Honoured(After(r, op), c, registered) && After(r, op).chans[c] == r.chans[c]
  {
    hide Agree, Clear, After, IsMapped, InKernel;
    AfterIsLocal(r, op, c);
  }

  lemma DistinctIsClear<C>(r: Registry<C>, now: Registry<C>, c: C)
    requires Initial(r) && Agree(now) && now.chans.Keys == r.chans.Keys && c in r.chans
    requires forall d :: d in r.chans ==> now.chans[d].fd == r.chans[d].fd
    ensures Clear(now, c)
  {
    assert ChannelAgrees(now, c);
  }

  /** After any sequence of enable, disable and remove calls over channels with distinct descriptors the
      kernel watches each channel for exactly what its own calls ask for: the read and write interests
      they leave on, from its first request, or its first after a removal, until the next removal. */
  lemma {:induction false} KernelFollowsRequests<C>(r: Registry<C>, ops: seq<Op<C>>, c: C)
    requires Initial(r) && c in r.chans
    requires forall i :: 0 <= i < |ops| ==> ops[i].c in r.chans
    ensures Run(r, ops).chans[c].events == Wanted(r.chans[c].events, ops, c)
    ensures Honoured(Run(r, ops), c, Registered(ops, c))
  {
    hide Agree, After, Clear;
    if ops != [] {
      var prefix, op := ops[..|ops| - 1], ops[|ops| - 1];
      KernelFollowsRequests(r, prefix, c);
      RunAgrees(r, prefix);
      DistinctIsClear(r, Run(r, prefix), op.c);
      if op.c == c {
        OwnOpIsHonoured(Run(r, prefix), op, Registered(prefix, c));
      } else {
        OtherOpIsHonoured(Run(r, prefix), op, c, Registered(prefix, c));
      }
    }
  }

  // ------------------------------------------------------------------ one channel's part

  /** What a registry holds about one channel. */
  datatype Slice = Slice(state: ChannelState, mapped: bool, interest: Option<Mask>)

  function SliceOf<C(==)>(r: Registry<C>, c: C): Slice
    requires c in r.chans
  {
    Slice(r.chans[c], IsMapped(r, c), if InKernel(r, c) then Some(r.kernel[r.chans[c].fd].mask) else None)
  }

  function UpdateSlice(s: Slice, events: Mask): Slice {
    if !s.state.index.Added? then
      Slice(s.state.(events := events, index := Added), true, Some(events))
    else if events == NONE_EVENT then
      Slice(s.state.(events := events, index := Deleted), true, None)
    else
      Slice(s.state.(events := events), true, Some(events))
  }

  function DropSlice(s: Slice): Slice {
    Slice(s.state.(index := New), false, None)
  }

  /** In an agreeing registry an operation acts on its own channel's part alone, and what it does
      there depends on that part alone. */
  lemma UpdateIsLocal<C>(r: Registry<C>, c: C, events: Mask, d: C)
    requires c in r.chans && d in r.chans && Agree(r) && Clear(r, c)
    ensures var s := Update(SetEvents(r, c, events), c);
            SliceOf(s, d) == if d == c then UpdateSlice(SliceOf(r, c), events) else SliceOf(r, d)
  {
    assert ChannelAgrees(r, c) && ChannelAgrees(r, d);
  }

  lemma DropIsLocal<C>(r: Registry<C>, c: C, d: C)
    requires c in r.chans && d in r.chans && Agree(r) && Clear(r, c)
    ensures SliceOf(Remove(r, c), d) == if d == c then DropSlice(SliceOf(r, c)) else SliceOf(r, d)
  {
    assert ChannelAgrees(r, c) && ChannelAgrees(r, d);
  }

  function SliceAfter<C>(s: Slice, op: Op<C>): Slice {
    match op
    case Ask(_, q) => UpdateSlice(s, NewEvents(s.state.events, q))
    case Drop(_) => DropSlice(s)
  }

  lemma AfterIsLocal<C>(r: Registry<C>, op: Op<C>, d: C)
    requires op.c in r.chans && d in r.chans && Agree(r) && Clear(r, op.c)
    ensures SliceOf(After(r, op), d) == if op.c == d then SliceAfter(SliceOf(r, d), op) else SliceOf(r, d)
  {
    match op
    case Ask(c, q) => UpdateIsLocal(r, c, NewEvents(r.chans[c].events, q), d);
    case Drop(c) => DropIsLocal(r, c, d);
  }

  lemma ControlTouchesOne<C>(r: Registry<C>, op: CtlOp, c: C)
    requires c in r.chans
    ensures var fd, s := r.chans[c].fd, Control(r, op, c);
            s.mapped == r.mapped && s.chans == r.chans && s.kernel - {fd} == r.kernel - {fd}
  {
  }

  lemma UpdateTouchesOne<C>(r: Registry<C>, c: C)
    requires c in r.chans
    ensures var fd, s := r.chans[c].fd, Update(r, c);
            s.mapped - {fd} == r.mapped - {fd} && s.kernel - {fd} == r.kernel - {fd}
  {
    hide Control;
    var ch := r.chans[c];
    if ch.index.New? || ch.index.Deleted? {
      var mapped := if ch.index.New? then r.mapped[ch.fd := c] else r.mapped;
      ControlTouchesOne(r.(chans := r.chans[c := ch.(index := Added)], mapped := mapped), ADD, c);
    } else {
      ControlTouchesOne(r, if ch.events == NONE_EVENT then DEL else MOD, c);
    }
  }

  lemma RemoveTouchesOne<C>(r: Registry<C>, c: C)
    requires c in r.chans
    ensures var fd, t := r.chans[c].fd, Remove(r, c);
            t.mapped - {fd} == r.mapped - {fd} && t.kernel - {fd} == r.kernel - {fd}
  {
    hide Control;
    ControlTouchesOne(r.(mapped := r.mapped - {r.chans[c].fd}), DEL, c);
  }

  /** No operation touches what is recorded under another descriptor. */
  lemma TouchesOneDescriptor<C>(r: Registry<C>, c: C, events: Mask)
    requires c in r.chans
    ensures var fd, s, t := r.chans[c].fd, Update(SetEvents(r, c, events), c), Remove(r, c);
            && s.mapped - {fd} == r.mapped - {fd} && s.kernel - {fd} == r.kernel - {fd}
            && t.mapped - {fd} == r.mapped - {fd} && t.kernel - {fd} == r.kernel - {fd}
  {
    hide Update, Remove;
    UpdateTouchesOne(SetEvents(r, c, events), c);
    RemoveTouchesOne(r, c);
  }
}
