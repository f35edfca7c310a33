/** The operating system as the library sees it: the answers of write(2) and readv(2) and the
    interest set of epoll_ctl(2). Answers are chosen by the environment; the functions below cut a
    choice down to what the kernel's own rules allow, so that "for every answer" covers every kernel. */
module Kernel {
  newtype byte = x: int | 0 <= x < 256

  datatype Option<+T> = None | Some(value: T)

  /** Outcome of write(2): bytes taken, EWOULDBLOCK, EPIPE or ECONNRESET, or any other errno. */
  datatype WriteAnswer = Wrote(n: nat) | WouldBlock | Broken | OtherError

  /** What write(2) does with `len` bytes when the environment would like to answer `wish`:
      never more than was offered, and only EPIPE once the write side has been shut. */
  function Write(shut: bool, len: nat, wish: WriteAnswer): (a: WriteAnswer)
    ensures a.Wrote? ==> a.n <= len && !shut
    ensures shut ==> a.Broken?
  {
    if shut then Broken
    else if wish.Wrote? && wish.n > len then Wrote(len)
    else wish
  }

  /** Number of bytes of the offered block that the kernel took. */
  function Taken(a: WriteAnswer): nat {
    if a.Wrote? then a.n else 0
  }

  /** Outcome of readv(2): the bytes delivered (none at end of stream) or an error. */
  datatype ReadAnswer = Data(bytes: seq<byte>) | ReadError

  /** epoll event masks (sys/epoll.h); the library uses only the five lowest bits. */
  type Mask = bv8

  const EPOLLIN: Mask := 0x01
  const EPOLLPRI: Mask := 0x02
  const EPOLLOUT: Mask := 0x04
  const EPOLLERR: Mask := 0x08
  const EPOLLHUP: Mask := 0x10

  datatype CtlOp = ADD | MOD | DEL

  /** One entry of the kernel's interest set: the mask and the pointer stored with it. */
  datatype Interest<C> = Interest(mask: Mask, ptr: C)

  /** epoll_ctl(2) on the interest set: ADD refuses a descriptor that is present (EEXIST), MOD and
      DEL refuse one that is absent (ENOENT). */
  function Ctl<C>(kernel: map<int, Interest<C>>, op: CtlOp, fd: int, entry: Interest<C>):
    (r: Option<map<int, Interest<C>>>)
    ensures r.None? <==> (op == ADD <==> fd in kernel)
    ensures r.Some? ==> (fd in r.value <==> op != DEL)
    ensures r.Some? ==> forall f :: f in kernel && f != fd ==> f in r.value && r.value[f] == kernel[f]
    ensures r.Some? ==> forall f :: f in r.value && f != fd ==> f in kernel
  {
    match op
    case ADD => if fd in kernel then None else Some(kernel[fd := entry])
    case MOD => if fd in kernel then Some(kernel[fd := entry]) else None
    case DEL => if fd in kernel then Some(kernel - {fd}) else None
  }
}
