/** The connection state machine of src/TcpConnection.cpp as functions on values: what each handler
    does to the state, the channel's records, the two buffers and the socket, for every answer of the
    kernel and every behaviour of the user's callbacks. */
module ConnModel {
  import opened Kernel
  import opened Registry
  import opened Reactor

  type Bytes = seq<byte>

  datatype State = Disconnected | Connecting | Connected | Disconnecting

  /** Functors on the loop's queue that concern this connection. */
  datatype Task = SendTask(msg: Bytes) | ShutdownTask | WriteCompleteTask | HighWaterTask(level: nat) | DestroyTask

  /** Calls of the user's callbacks. */
  datatype Upcall = Up | Message | Down | WriteComplete | HighWater(level: nat)

  /** Which callbacks are set, and the high-water mark. */
  datatype Settings = Settings(onWriteComplete: bool, onHighWater: bool, mark: nat)

  /** One sendInLoop call: its message, whether it was refused, and what its own write returned, if it
      made one that did not fail. */
  datatype Record = Record(msg: Bytes, refused: bool, wrote: Option<nat>)

  /** Bytes in the kernel's stream, and bytes accepted, when a write-complete was queued. */
  datatype Stamp = Stamp(inKernel: nat, accepted: nat)

  /** chan: the channel's records; stream, shut: bytes the kernel took and whether the write side is
      closed; inflight: functors that other threads are about to queue; removalsOwed: removals of the
      connection asked of the server and not yet carried out. The last fields are histories: sendInLoop
      calls, backlog sizes, callbacks, moments at which a write-complete was queued, handleClose calls,
      connectDestroyed calls, bytes read and bytes taken by the user. */
  datatype Conn = Conn(
    cfg: Settings, state: State, chan: Slice, input: Bytes, output: Bytes,
    stream: Bytes, shut: bool, queue: seq<Task>, inflight: multiset<Task>, removalsOwed: nat,
    sends: seq<Record>, levels: seq<nat>, upcalls: seq<Upcall>, completions: seq<Stamp>,
    closes: nat, destroys: nat, received: Bytes, consumed: Bytes)

  function NewConn(cfg: Settings, fd: int): Conn {
    Conn(cfg, Connecting, Slice(ChannelState(fd, NONE_EVENT, New), false, None), [], [],
         [], false, [], multiset{}, 0, [], [0], [], [], 0, 0, [], [])
  }

  /** The bytes of the messages not refused, in the order of the sendInLoop calls. */
  function Accepted(sends: seq<Record>): Bytes {
    if sends == [] then []
    else
      var last := sends[|sends| - 1];
      Accepted(sends[..|sends| - 1]) + if last.refused then [] else last.msg
  }

  predicate Writing(c: Conn) {
    IsWriting(c.chan.state.events)
  }

  function Watch(c: Conn, q: Request): Conn {
    c.(chan := UpdateSlice(c.chan, NewEvents(c.chan.state.events, q)))
  }

  function Notify(c: Conn, u: Upcall): Conn {
    c.(upcalls := c.upcalls + [u])
  }

  // ------------------------------------------------------------------ output

  function QueueWriteComplete(c: Conn): Conn {
    if c.cfg.onWriteComplete then
      c.(queue := c.queue + [WriteCompleteTask],
         completions := c.completions + [Stamp(|c.stream|, |Accepted(c.sends)|)])
    else c
  }

  /** The tail of sendInLoop: what was not written goes to outputBuffer_. */
  function Backlog(c: Conn, rest: Bytes): Conn {
    if rest == [] then c
    else
      var level := |c.output| + |rest|;
      var d := if level >= c.cfg.mark && |c.output| < c.cfg.mark && c.cfg.onHighWater
               then c.(queue := c.queue + [HighWaterTask(level)]) else c;
      var e := d.(output := d.output + rest, levels := d.levels + [level]);
      if Writing(e) then e else Watch(e, EnableWriting)
  }

  function Log(c: Conn, msg: Bytes, refused: bool, wrote: Option<nat>): Conn {
    c.(sends := c.sends + [Record(msg, refused, wrote)])
  }

  function SendInLoop(c: Conn, msg: Bytes, wish: WriteAnswer): Conn {
    if c.state.Disconnected? then Log(c, msg, true, None)
    else if !Writing(c) && c.output == [] then
      match Write(c.shut, |msg|, wish)
      case Wrote(n) =>
        var d := Log(c, msg, false, Some(n)).(stream := c.stream + msg[..n]);
        if n == |msg| then QueueWriteComplete(d) else Backlog(d, msg[n..])
      case Broken => Log(c, msg, true, None)
      case _ => Backlog(Log(c, msg, false, None), msg)
    else Backlog(Log(c, msg, false, None), msg)
  }

  function ShutdownInLoop(c: Conn): Conn {
    if !Writing(c) then c.(shut := true) else c
  }

  function HandleWrite(c: Conn, wish: WriteAnswer): Conn {
    var answer := Write(c.shut, |c.output|, wish);
    if Writing(c) && answer.Wrote? && answer.n > 0 then
      var rest := c.output[answer.n..];
      var d := c.(stream := c.stream + c.output[..answer.n], output := rest, levels := c.levels + [|rest|]);
      if rest == [] then
        var e := QueueWriteComplete(Watch(d, DisableWriting));
        if e.state.Disconnecting? then ShutdownInLoop(e) else e
      else d
    else c
  }

  // ------------------------------------------------------------------ calls by the user

  /** Steps of other threads: send and shutdown test state_ there, and queue their functor later. */
  datatype Foreign = ForeignSend(msg: Bytes) | ForeignShutdown | Queue(task: Task)

  function DoForeign(c: Conn, f: Foreign): Conn {
    match f
    case ForeignSend(msg) =>
      if c.state.Connected? then c.(inflight := c.inflight + multiset{SendTask(msg)}) else c
    case ForeignShutdown =>
      if c.state.Connected? then c.(state := Disconnecting, inflight := c.inflight + multiset{ShutdownTask}) else c
    case Queue(task) =>
      if task in c.inflight then c.(inflight := c.inflight - multiset{task}, queue := c.queue + [task]) else c
  }

  /** What user code on the loop's thread may do with the connection; Slip is a step of another thread
      that falls between two such calls. */
  datatype Call = Send(msg: Bytes, wish: WriteAnswer) | Shutdown | Retrieve(n: nat) | Slip(f: Foreign)

  function DoCall(c: Conn, call: Call): Conn {
    match call
    case Send(msg, wish) => if c.state.Connected? then SendInLoop(c, msg, wish) else c
    case Shutdown => if c.state.Connected? then ShutdownInLoop(c.(state := Disconnecting)) else c
    case Retrieve(n) =>
      if n < |c.input| then c.(input := c.input[n..], consumed := c.consumed + c.input[..n])
      else c.(input := [], consumed := c.consumed + c.input)
    case Slip(f) => DoForeign(c, f)
  }

  function DoCalls(c: Conn, calls: seq<Call>): Conn {
    if calls == [] then c else DoCall(DoCalls(c, calls[..|calls| - 1]), calls[|calls| - 1])
  }

  // ------------------------------------------------------------------ handlers

  function ConnectEstablished(c: Conn, calls: seq<Call>): Conn {
    DoCalls(Notify(Watch(c.(state := Connected), EnableReading), Up), calls)
  }

  function ConnectDestroyed(c: Conn, calls: seq<Call>): Conn {
    var d := if c.state.Connected?
             then DoCalls(Notify(Watch(c.(state := Disconnected), DisableAll), Down), calls) else c;
    d.(chan := DropSlice(d.chan), destroys := d.destroys + 1)
  }

  function CloseBegins(c: Conn): Conn {
    Notify(Watch(c.(state := Disconnected, closes := c.closes + 1), DisableAll), Down)
  }

  /** handleClose: the last thing it does is to ask the server for the removal. */
  function HandleClose(c: Conn, calls: seq<Call>): Conn {
    var d := DoCalls(CloseBegins(c), calls);
    d.(removalsOwed := d.removalsOwed + 1)
  }

  function Received(c: Conn, bytes: Bytes): Conn {
    c.(input := c.input + bytes, received := c.received + bytes)
  }

  function HandleRead(c: Conn, answer: ReadAnswer, calls: seq<Call>): Conn {
    if answer.ReadError? then c
    else if answer.bytes == [] then HandleClose(c, calls)
    else DoCalls(Notify(Received(c, answer.bytes), Message), calls)
  }

  /** The environment's part in one dispatch. */
  datatype Reaction = Reaction(answer: ReadAnswer, wish: WriteAnswer, calls: seq<Call>)

  function React(c: Conn, cb: Callback, r: Reaction): Conn {
    match cb
    case OnClose => HandleClose(c, r.calls)
    case OnError => c
    case OnRead => HandleRead(c, r.answer, r.calls)
    case OnWrite => HandleWrite(c, r.wish)
  }

  function ReactAll(c: Conn, cbs: seq<Callback>, r: Reaction): Conn {
    if cbs == [] then c else React(ReactAll(c, cbs[..|cbs| - 1], r), cbs[|cbs| - 1], r)
  }

  function HandleEvent(c: Conn, revents: Mask, r: Reaction): Conn {
    ReactAll(c, Dispatch(revents), r)
  }

  function RunTask(c: Conn, wish: WriteAnswer, calls: seq<Call>): Conn
    requires c.queue != []
  {
    var d := c.(queue := c.queue[1..]);
    match c.queue[0]
    case SendTask(msg) => SendInLoop(d, msg, wish)
    case ShutdownTask => ShutdownInLoop(d)
    case WriteCompleteTask => DoCalls(Notify(d, WriteComplete), calls)
    case HighWaterTask(level) => DoCalls(Notify(d, HighWater(level)), calls)
    case DestroyTask => ConnectDestroyed(d, calls)
  }

  // ------------------------------------------------------------------ runs

  datatype Event =
    | Establish(calls: seq<Call>)              // the queued, or inline, connectEstablished
    | InLoop(call: Call)                       // user code elsewhere on the loop's thread
    | Elsewhere(f: Foreign)                    // another thread
    | Io(revents: Mask, r: Reaction)           // reported by poll and handled
    | Task(wish: WriteAnswer, calls: seq<Call>) // the connection's next functor
    | Removed                                  // the server has erased it and queued connectDestroyed

  predicate Enabled(c: Conn, e: Event) {
    match e
    case Establish(_) => c.state.Connecting?
    case InLoop(_) => true
    case Elsewhere(_) => true
    case Io(revents, _) => c.chan.interest.Some? && !HangUpWithUrgentOnly(revents)
    case Task(_, _) => c.queue != []
    case Removed => c.removalsOwed > 0
  }

  function Apply(c: Conn, e: Event): Conn
    requires Enabled(c, e)
  {
    match e
    case Establish(calls) => ConnectEstablished(c, calls)
    case InLoop(call) => DoCall(c, call)
    case Elsewhere(f) => DoForeign(c, f)
    case Io(revents, r) => HandleEvent(c, revents, r)
    case Task(wish, calls) => RunTask(c, wish, calls)
    case Removed => c.(removalsOwed := c.removalsOwed - 1, queue := c.queue + [DestroyTask])
  }

  ghost predicate IsRun(run: seq<Conn>, events: seq<Event>) {
    && |run| == |events| + 1
    && (exists cfg, fd :: run[0] == NewConn(cfg, fd))
    && forall i :: 0 <= i < |events| ==> Enabled(run[i], events[i]) && run[i + 1] == Apply(run[i], events[i])
  }
}
