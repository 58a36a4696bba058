/** The runtime and its handles as objects: the methods refine the functions of HandleRegistry, one thread at a time. */
module Runtime {
  import opened HandleRegistry
  import opened Sets

  /** What a `close` call does about the descriptor, in order. */
  datatype CloseStep = Deregistered | DescriptorClosed

  /** An acceptor, or a socket with the flag `TcpSocket::closed_`. */
  class Handle {
    const fd: int
    const kind: Kind
    var runtime: Runtime?
    var closed: bool
    /** The calls of `deregister_handle` and of `::close` that have been made for the handle. */
    ghost var steps: seq<CloseStep>

    constructor (fd: int, kind: Kind)
      ensures this.fd == fd && this.kind == kind && runtime == null && !closed && steps == []
    {
      this.fd, this.kind := fd, kind;
      runtime, closed, steps := null, false, [];
    }

    /** A second close of a socket is one that does nothing. */
    ghost predicate CloseIsNoop()
      reads this
    {
      kind == Socket && closed
    }

    /** `Handle::close`, and before it the flag of `TcpSocket::close`; the drain loops are those of TcpSocket. */
    method Close()
      requires runtime != null ==> runtime.Valid()
      modifies this, if runtime == null then {} else {runtime}
      ensures old(CloseIsNoop()) ==> unchanged(this) && (old(runtime) != null ==> unchanged(old(runtime)))
      ensures !old(CloseIsNoop()) ==>
                && steps == old(steps) + (if old(runtime) != null then [Deregistered] else []) + [DescriptorClosed]
                && closed == (kind == Socket || old(closed))
                && (old(runtime) != null ==>
                      && old(runtime).Valid()
                      && old(runtime).Table() ==
                         DropDescriptor(
                           Deregister(old(if runtime == null then Empty() else runtime.Table()), this, fd, kind), fd)
                      && runtime == if old(runtime != null && runtime.Registered(this)) then null else old(runtime))
                && (old(runtime) == null ==> runtime == null)
    {
      if kind == Socket {
        if closed {
          return;
        }
        closed := true;
      }
      if runtime != null {
        var strong := runtime;
        strong.DeregisterHandle(this);
        strong.interest := strong.interest - {fd};
      }
      steps := steps + [DescriptorClosed];
    }
  }

  class Runtime {
    var allHandles: map<int, Handle>
    var allSockets: set<Handle>
    var removableHandles: seq<Handle>
    /** The kernel's side of the epoll instance. */
    ghost var interest: map<int, Interest<Handle>>

    constructor ()
      ensures Valid() && Table() == Empty()
    {
      allHandles, allSockets, removableHandles, interest := map[], {}, [], map[];
    }

    ghost function Table(): Registry<Handle>
      reads this
    {
      Registry(allHandles, allSockets, removableHandles, interest)
    }

    ghost predicate Registered(handle: Handle)
      reads this
    {
      handle.fd in allHandles && allHandles[handle.fd] == handle
    }

    /** Keys are the handles' descriptors, and `all_sockets_` holds the sockets among the registered handles. */
    ghost predicate Valid()
      reads this
    {
      && (forall fd :: fd in allHandles ==> allHandles[fd].fd == fd)
      && (forall h :: h in allSockets ==> h.kind == Socket && Registered(h))
      && (forall fd :: fd in allHandles && allHandles[fd].kind == Socket ==> allHandles[fd] in allSockets)
    }

    /** `open` is whether the kernel has the handle's descriptor open, which decides what `epoll_ctl` does. */
    method RegisterHandle(handle: Handle, ghost open: bool)
      requires Valid()
      modifies this, handle, allHandles.Values
      ensures Valid()
      ensures handle.fd !in old(allHandles) ==>
                && handle.runtime == this
                && Table() == Insert(Announce(old(Table()), handle, handle.fd, handle.kind, open), handle, handle.fd)
      ensures handle.fd !in old(allHandles) && open && handle.fd !in old(interest) ==>
                && handle.fd in interest && interest[handle.fd].handle == handle
                && interest[handle.fd].events ==
                   if handle.kind == Socket then {EPOLLIN, EPOLLOUT, EPOLLPRI, EPOLLET, EPOLLRDHUP}
                   else {EPOLLIN, EPOLLRDHUP}
      ensures handle.fd in old(allHandles) ==>
                var prev := old(allHandles)[handle.fd];
                && prev.runtime == null
                && (prev != handle ==> handle.runtime == this)
                && Table() == Replace(old(Table()), handle, handle.fd, handle.kind, prev.kind, !old(prev.CloseIsNoop()))
    {
      handle.runtime := this;
      var fd := handle.fd;
      if fd !in allHandles {
        if handle.kind == Socket {
          allSockets := allSockets + {handle};
        }
        interest := EpollAdd(interest, fd, open, Interest(handle, Mask(handle.kind)));
        allHandles := allHandles[fd := handle];
      } else {
        ReplaceHandle(handle);
      }
    }

    /** The branch of `register_handle` for a descriptor that is registered already. */
    method ReplaceHandle(handle: Handle)
      requires Valid() && handle.fd in allHandles && handle.runtime == this
      modifies this, allHandles[handle.fd]
      ensures Valid()
      ensures var prev := old(allHandles)[handle.fd];
              && prev.runtime == null
              && (prev != handle ==> handle.runtime == this)
              && Table() == Replace(old(Table()), handle, handle.fd, handle.kind, prev.kind, !old(prev.CloseIsNoop()))
    {
      var fd := handle.fd;
      var prev := allHandles[fd];
      removableHandles := removableHandles + [prev];
      prev.runtime := null;
      ghost var steps := prev.steps;
      prev.Close();
      if prev.steps != steps {
        interest := interest - {fd};
      }
      if prev.kind == Socket {
        allSockets := allSockets - {prev};
      }
      if handle.kind == Socket {
        allSockets := allSockets + {handle};
      }
      interest := EpollMod(interest, fd, Interest(handle, Mask(handle.kind)));
      allHandles := allHandles[fd := handle];
    }

    method DeregisterHandle(handle: Handle)
      requires Valid()
      modifies this, handle`runtime, handle`steps
      ensures Valid()
      ensures handle.steps == old(handle.steps) + [Deregistered]
      ensures Table() == Deregister(old(Table()), handle, handle.fd, handle.kind)
      ensures handle.runtime == if old(Registered(handle)) then null else old(handle.runtime)
    {
      handle.steps := handle.steps + [Deregistered];
      var fd := handle.fd;
      if fd !in allHandles || allHandles[fd] != handle {
        return;
      }
      handle.runtime := null;
      if handle.kind == Socket {
        allSockets := allSockets - {handle};
      }
      interest := interest - {fd};
      removableHandles := removableHandles + [allHandles[fd]];
      allHandles := allHandles - {fd};
    }

    /** The end of an iteration of `exec`. */
    method ClearRemovableHandles()
      requires Valid()
      modifies this`removableHandles
      ensures Valid() && Table() == ClearRemovable(old(Table()))
    {
      removableHandles := [];
    }

    method ReleaseAllHandles()
      requires Valid()
      modifies this, allHandles.Values
      ensures Valid() && Table() == ReleaseAll(old(Table()))
      ensures forall fd :: fd in old(allHandles) ==> old(allHandles)[fd].runtime == null
    {
      var todo: set<int> := allHandles.Keys;
      while todo != {}
        invariant todo <= allHandles.Keys
        invariant unchanged(this`allHandles) && unchanged(this`allSockets) && unchanged(this`removableHandles)
        invariant interest == old(interest) - (allHandles.Keys - todo)
        invariant forall fd :: fd in allHandles && fd !in todo ==> allHandles[fd].runtime == null
        decreases todo
      {
        ghost var some := AnElement(todo);
        var fd :| fd in todo;
        allHandles[fd].runtime := null;
        interest := interest - {fd};
        todo := todo - {fd};
      }
      allHandles, allSockets, removableHandles := map[], {}, [];
    }
  }
}
