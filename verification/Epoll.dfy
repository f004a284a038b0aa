// The objects that the event loop changes in place: the wrapper with its two maps and its
// buffer (src/epoll.rs), and the handle that callbacks get to it (src/events.rs). Each
// method is proved to do what the corresponding function of module Index says.

module Epoll {
  import opened EventData
  import opened Index

  class EpollWrapper {
    var epoll: Kernel
    var fdDispatch: map<RawFd, U64>
    var subscriberWatchList: map<U64, seq<RawFd>>
    const readyEvents: array<EpollEvent>

    ghost function Model(): Wrapper
      reads this, readyEvents
    {
      Wrapper(epoll, fdDispatch, subscriberWatchList, readyEvents[..])
    }

    constructor (capacity: nat, open: set<RawFd>)
      ensures fresh(readyEvents)
      ensures Model() == Wrapper(Kernel(map[], open), map[], map[], seq(capacity, j => DEFAULT_EVENT))
    {
      epoll := Kernel(map[], open);
      fdDispatch := map[];
      subscriberWatchList := map[];
      readyEvents := new EpollEvent[capacity](j => DEFAULT_EVENT);
      new;
      assert readyEvents[..] == seq(capacity, j => DEFAULT_EVENT);
    }

    /** `epoll.wait` with the kernel's answer as a parameter; no events on a signal. */
    method Poll(batch: seq<EpollEvent>) returns (eventCount: nat)
      requires |batch| <= readyEvents.Length
      modifies readyEvents
      ensures eventCount == |batch|
      ensures Model() == old(Model()).(ready := batch + old(readyEvents[..])[|batch|..])
    {
      eventCount := |batch|;
      for i := 0 to |batch|
        invariant forall j :: 0 <= j < i ==> readyEvents[j] == batch[j]
        invariant forall j :: i <= j < readyEvents.Length ==> readyEvents[j] == old(readyEvents[j])
      {
        readyEvents[i] := batch[i];
      }
      assert readyEvents[..] == batch + old(readyEvents[..])[|batch|..];
    }

    /** Soft removal: the entries for `fd` are overwritten where they stand. */
    method RemoveEvent(fd: RawFd)
      modifies this`fdDispatch, readyEvents
      ensures Model() == Index.RemoveEvent(old(Model()), fd)
    {
      fdDispatch := fdDispatch - {fd};
      for i := 0 to readyEvents.Length
        invariant fdDispatch == old(fdDispatch) - {fd}
        invariant forall j :: 0 <= j < i ==> readyEvents[j] == Cleared(old(readyEvents[..]), fd)[j]
        invariant forall j :: i <= j < readyEvents.Length ==> readyEvents[j] == old(readyEvents[j])
      {
        if Fd(readyEvents[i]) == fd {
          readyEvents[i] := DEFAULT_EVENT;
        }
      }
      assert readyEvents[..] == Cleared(old(readyEvents[..]), fd);
    }

    method Remove(subscriberId: U64)
      modifies this, readyEvents
      ensures Model() == RemoveSubscriber(old(Model()), subscriberId)
    {
      var fds := if subscriberId in subscriberWatchList then subscriberWatchList[subscriberId] else [];
      subscriberWatchList := subscriberWatchList - {subscriberId};
      var i := 0;
      assert fds[0..] == fds;
      while i < |fds|
        invariant i <= |fds|
        invariant RemoveAll(Model(), fds[i..]) == RemoveSubscriber(old(Model()), subscriberId)
      {
        assert fds[i..][1..] == fds[i + 1..];
        epoll := Ctl(epoll, Delete, fds[i], DEFAULT_EVENT).0;
        RemoveEvent(fds[i]);
        i := i + 1;
      }
    }

    method SubscriberId(fd: RawFd) returns (id: Option<U64>)
      ensures id == if fd in fdDispatch then Some(fdDispatch[fd]) else None
    {
      if fd in fdDispatch {
        return Some(fdDispatch[fd]);
      }
      return None;
    }
  }

  /** `watch_list.iter().position(|&x| x == fd)`: the first occurrence. */
  method Position(fds: seq<RawFd>, fd: RawFd) returns (index: Option<nat>)
    ensures index.None? ==> fd !in fds
    ensures index.Some? ==> index.value < |fds| && fds[index.value] == fd && fd !in fds[..index.value]
  {
    for i := 0 to |fds|
      invariant fd !in fds[..i]
    {
      if fds[i] == fd {
        return Some(i);
      }
    }
    return None;
  }

  lemma {:induction false} RemoveFirstAt(fds: seq<RawFd>, fd: RawFd, index: nat)
    requires index < |fds| && fds[index] == fd && fd !in fds[..index]
    ensures RemoveFirst(fds, fd) == fds[..index] + fds[index + 1..]
  {
    if index > 0 {
      assert fds[0] in fds[..index];
      assert fds[1..][..index - 1] == fds[..index][1..];
      RemoveFirstAt(fds[1..], fd, index - 1);
    }
  }

  lemma {:induction false} RemoveFirstAbsent(fds: seq<RawFd>, fd: RawFd)
    requires fd !in fds
    ensures RemoveFirst(fds, fd) == fds
  {
    if fds != [] {
      RemoveFirstAbsent(fds[1..], fd);
    }
  }

  class EventOps {
    const epollWrapper: EpollWrapper
    const subscriberId: U64

    constructor (epollWrapper: EpollWrapper, subscriberId: U64)
      ensures this.epollWrapper == epollWrapper && this.subscriberId == subscriberId
    {
      this.epollWrapper := epollWrapper;
      this.subscriberId := subscriberId;
    }

    method Ctl(op: ControlOperation, events: EpollEvent) returns (ok: bool)
      modifies epollWrapper`epoll
      ensures (epollWrapper.epoll, ok) == Index.Ctl(old(epollWrapper.epoll), op, Fd(events), events)
    {
      var (k, done) := Index.Ctl(epollWrapper.epoll, op, Fd(events), events);
      epollWrapper.epoll := k;
      ok := done;
    }

    method Add(events: EpollEvent) returns (res: Result)
      modifies epollWrapper
      ensures (epollWrapper.Model(), res) == AddEvents(old(epollWrapper.Model()), subscriberId, events)
    {
      var fd := Fd(events);
      if fd in epollWrapper.fdDispatch {
        return Err(FdAlreadyRegistered);
      }
      var ok := Ctl(ControlOperation.Add, events);
      if !ok {
        return Err(Error.Epoll);
      }
      epollWrapper.fdDispatch := epollWrapper.fdDispatch[fd := subscriberId];
      var list := if subscriberId in epollWrapper.subscriberWatchList
          then epollWrapper.subscriberWatchList[subscriberId] else [];
      epollWrapper.subscriberWatchList := epollWrapper.subscriberWatchList[subscriberId := list + [fd]];
      return Ok;
    }

    method Modify(events: EpollEvent) returns (res: Result)
      modifies epollWrapper`epoll
      ensures (epollWrapper.Model(), res) == ModifyEvents(old(epollWrapper.Model()), events)
    {
      var ok := Ctl(ControlOperation.Modify, events);
      return if ok then Ok else Err(Error.Epoll);
    }

    method Remove(events: EpollEvent) returns (res: Result)
      modifies epollWrapper, epollWrapper.readyEvents
      ensures (epollWrapper.Model(), res) == RemoveEvents(old(epollWrapper.Model()), subscriberId, events)
    {
      var ok := Ctl(Delete, events);
      if !ok {
        return Err(Error.Epoll);
      }
      epollWrapper.RemoveEvent(Fd(events));
      if subscriberId in epollWrapper.subscriberWatchList {
        var list := epollWrapper.subscriberWatchList[subscriberId];
        var index := Position(list, Fd(events));
        if index.Some? {
          RemoveFirstAt(list, Fd(events), index.value);
          epollWrapper.subscriberWatchList :=
            epollWrapper.subscriberWatchList[subscriberId := list[..index.value] + list[index.value + 1..]];
        } else {
          RemoveFirstAbsent(list, Fd(events));
          assert epollWrapper.subscriberWatchList[subscriberId := list] == epollWrapper.subscriberWatchList;
        }
      }
      return Ok;
    }

    /** One operation of a callback. */
    method Do(op: Op) returns (res: Result)
      modifies epollWrapper, epollWrapper.readyEvents
      ensures (epollWrapper.Model(), res) == Apply(old(epollWrapper.Model()), subscriberId, op)
    {
      match op {
        case OpAdd(events) => res := Add(events);
        case OpModify(events) => res := Modify(events);
        case OpRemove(events) => res := Remove(events);
        case Open(fd) =>
          var (k, ok) := OpenFd(epollWrapper.epoll, fd);
          epollWrapper.epoll := k;
          res := if ok then Ok else Err(Error.Epoll);
        case Close(fd) =>
          var (k, ok) := CloseFd(epollWrapper.epoll, fd);
          epollWrapper.epoll := k;
          res := if ok then Ok else Err(Error.Epoll);
      }
    }
  }
}
