/**
  The registry of runtime.cpp: what the regions under `handles_mtx_` do to `all_handles_`, `all_sockets_`,
  `removable_handles_` and to the kernel's epoll interest set. The functions are generic in what a handle is.
 */
module HandleRegistry {

  datatype Kind = Acceptor | Socket

  datatype Event = EPOLLIN | EPOLLOUT | EPOLLPRI | EPOLLET | EPOLLRDHUP

  /** The events a handle is registered for. */
  function Mask(kind: Kind): set<Event> {
    match kind
    case Socket => {EPOLLIN, EPOLLOUT, EPOLLPRI, EPOLLET, EPOLLRDHUP}
    case Acceptor => {EPOLLIN, EPOLLRDHUP}
  }

  datatype Interest<H> = Interest(handle: H, events: set<Event>)

  datatype Registry<H> = Registry(
    handles: map<int, H>,
    sockets: set<H>,
    removable: seq<H>,
    interest: map<int, Interest<H>>)

  function Empty<H>(): Registry<H> {
    Registry(map[], {}, [], map[])
  }

  /** `EPOLL_CTL_ADD` fails on a closed descriptor and on one already in the set. */
  function EpollAdd<H>(interest: map<int, Interest<H>>, fd: int, open: bool, entry: Interest<H>)
    : map<int, Interest<H>>
  {
    if open && fd !in interest then interest[fd := entry] else interest
  }

  /** `EPOLL_CTL_MOD` fails on a descriptor that is not in the set. */
  function EpollMod<H>(interest: map<int, Interest<H>>, fd: int, entry: Interest<H>): map<int, Interest<H>> {
    if fd in interest then interest[fd := entry] else interest
  }

  /** `::close` makes the kernel forget the descriptor. */
  function DropDescriptor<H>(r: Registry<H>, fd: int): Registry<H> {
    r.(interest := r.interest - {fd})
  }

  function AsSocket<H(==)>(h: H, kind: Kind): set<H> {
    if kind == Socket then {h} else {}
  }

  /** The insert branch of `register_handle` up to and including the `epoll_ctl` call. */
  function Announce<H(==)>(r: Registry<H>, h: H, fd: int, kind: Kind, open: bool): Registry<H> {
    r.(sockets := r.sockets + AsSocket(h, kind),
       interest := EpollAdd(r.interest, fd, open, Interest(h, Mask(kind))))
  }

  /** The insertion that ends it. */
  function Insert<H>(r: Registry<H>, h: H, fd: int): Registry<H> {
    r.(handles := r.handles[fd := h])
  }

  /**
    The replace branch: `prev` goes to the removable handles and is closed, and the new handle takes its place.
    When `prev.close()` reaches `::close`, the kernel drops the descriptor from the interest set.
   */
  function Replace<H(==)>(r: Registry<H>, h: H, fd: int, kind: Kind, prevKind: Kind, prevCloses: bool): Registry<H>
    requires fd in r.handles
  {
    var prev := r.handles[fd];
    var interest := if prevCloses then r.interest - {fd} else r.interest;
    Registry(r.handles[fd := h],
             r.sockets - AsSocket(prev, prevKind) + AsSocket(h, kind),
             r.removable + [prev],
             EpollMod(interest, fd, Interest(h, Mask(kind))))
  }

  /** `deregister_handle`: nothing happens unless the handle itself is registered under its descriptor. */
  function Deregister<H(==)>(r: Registry<H>, h: H, fd: int, kind: Kind): Registry<H> {
    if fd !in r.handles || r.handles[fd] != h then r
    else Registry(r.handles - {fd}, r.sockets - AsSocket(h, kind), r.removable + [h], r.interest - {fd})
  }

  /** `release_all_handles` */
  function ReleaseAll<H>(r: Registry<H>): Registry<H> {
    Registry(map[], {}, [], r.interest - r.handles.Keys)
  }

  /** The end of an `exec` iteration. */
  function ClearRemovable<H>(r: Registry<H>): Registry<H> {
    r.(removable := [])
  }
}
