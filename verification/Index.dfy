// The registration index: the kernel interest set, the two maps the manager keeps
// beside it, the scratch buffer of ready events, and the operations a callback can
// apply to them while that buffer is being walked (src/epoll.rs, src/events.rs).

module Index {
  import opened EventData

  datatype Error = FdAlreadyRegistered | Epoll | InvalidId | InvalidCapacity | EventFd

  datatype Result = Ok | Err(error: Error)

  // ---------- the kernel ----------

  /** `interest` is what epoll watches; `open` the descriptors of the process that
      epoll would accept. Closing a descriptor drops it from both. */
  datatype Kernel = Kernel(interest: map<RawFd, EpollEvent>, open: set<RawFd>)

  datatype ControlOperation = Add | Modify | Delete

  function Ctl(k: Kernel, op: ControlOperation, fd: RawFd, e: EpollEvent): (Kernel, bool) {
    match op
    case Add => if fd in k.open && fd !in k.interest then (k.(interest := k.interest[fd := e]), true) else (k, false)
    case Modify => if fd in k.interest then (k.(interest := k.interest[fd := e]), true) else (k, false)
    case Delete => if fd in k.interest then (k.(interest := k.interest - {fd}), true) else (k, false)
  }

  function OpenFd(k: Kernel, fd: RawFd): (Kernel, bool) {
    if fd < 0 || fd in k.open then (k, false) else (k.(open := k.open + {fd}), true)
  }

  function CloseFd(k: Kernel, fd: RawFd): (Kernel, bool) {
    if fd !in k.open then (k, false) else (Kernel(k.interest - {fd}, k.open - {fd}), true)
  }

  // ---------- the wrapper ----------

  datatype Wrapper = Wrapper(
    kernel: Kernel,
    dispatch: map<RawFd, U64>,
    watch: map<U64, seq<RawFd>>,
    ready: seq<EpollEvent>)

  /** The buffer with every entry for `fd` overwritten by the default event. */
  function Cleared(ready: seq<EpollEvent>, fd: RawFd): (r: seq<EpollEvent>)
    ensures |r| == |ready|
    ensures forall j :: 0 <= j < |r| ==> r[j] == if Fd(ready[j]) == fd then DEFAULT_EVENT else ready[j]
  {
    seq(|ready|, j requires 0 <= j < |ready| => if Fd(ready[j]) == fd then DEFAULT_EVENT else ready[j])
  }

  function RemoveEvent(w: Wrapper, fd: RawFd): Wrapper {
    w.(dispatch := w.dispatch - {fd}, ready := Cleared(w.ready, fd))
  }

  function RemoveFirst(fds: seq<RawFd>, fd: RawFd): seq<RawFd> {
    if fds == [] then []
    else if fds[0] == fd then fds[1..]
    else [fds[0]] + RemoveFirst(fds[1..], fd)
  }

  function WatchListOf(w: Wrapper, id: U64): seq<RawFd> {
    if id in w.watch then w.watch[id] else []
  }

  /** `EpollWrapper::remove` on the descriptors of one watch list; the outcome of each
      control operation is ignored. */
  function RemoveAll(w: Wrapper, fds: seq<RawFd>): Wrapper
    decreases |fds|
  {
    if fds == [] then w
    else RemoveAll(RemoveEvent(w.(kernel := Ctl(w.kernel, Delete, fds[0], DEFAULT_EVENT).0), fds[0]), fds[1..])
  }

  function RemoveSubscriber(w: Wrapper, id: U64): Wrapper {
    RemoveAll(w.(watch := w.watch - {id}), WatchListOf(w, id))
  }

  // ---------- what a callback can do ----------

  /** The three operations of `EventOps`, and the two effects on the kernel that any
      user code can have by opening and closing descriptors. */
  datatype Op =
    | OpAdd(ev: EpollEvent)
    | OpModify(ev: EpollEvent)
    | OpRemove(ev: EpollEvent)
    | Open(fd: RawFd)
    | Close(fd: RawFd)

  function AddEvents(w: Wrapper, id: U64, ev: EpollEvent): (Wrapper, Result) {
    var fd := Fd(ev);
    if fd in w.dispatch then (w, Err(FdAlreadyRegistered))
    else
      var (k, ok) := Ctl(w.kernel, Add, fd, ev);
      if !ok then (w, Err(Epoll))
      else (w.(kernel := k, dispatch := w.dispatch[fd := id], watch := w.watch[id := WatchListOf(w, id) + [fd]]), Ok)
  }

  function ModifyEvents(w: Wrapper, ev: EpollEvent): (Wrapper, Result) {
    var (k, ok) := Ctl(w.kernel, Modify, Fd(ev), ev);
    if !ok then (w, Err(Epoll)) else (w.(kernel := k), Ok)
  }

  function RemoveEvents(w: Wrapper, id: U64, ev: EpollEvent): (Wrapper, Result) {
    var (k, ok) := Ctl(w.kernel, Delete, Fd(ev), ev);
    if !ok then (w, Err(Epoll))
    else
      var w1 := RemoveEvent(w.(kernel := k), Fd(ev));
      if id in w1.watch then (w1.(watch := w1.watch[id := RemoveFirst(w1.watch[id], Fd(ev))]), Ok) else (w1, Ok)
  }

  function Apply(w: Wrapper, id: U64, op: Op): (Wrapper, Result) {
    match op
    case OpAdd(ev) => AddEvents(w, id, ev)
    case OpModify(ev) => ModifyEvents(w, ev)
    case OpRemove(ev) => RemoveEvents(w, id, ev)
    case Open(fd) => var (k, ok) := OpenFd(w.kernel, fd); (w.(kernel := k), if ok then Ok else Err(Epoll))
    case Close(fd) => var (k, ok) := CloseFd(w.kernel, fd); (w.(kernel := k), if ok then Ok else Err(Epoll))
  }

  /** User code leaves the manager's private channel descriptor alone: it may try to
      add it (the kernel refuses), but not modify, remove or close it. */
  predicate Polite(chan: RawFd, op: Op) {
    match op
    case OpModify(ev) => Fd(ev) != chan
    case OpRemove(ev) => Fd(ev) != chan
    case Close(fd) => fd != chan
    case _ => true
  }

  // ---------- what each operation does ----------

  /** The interest set is as before for every descriptor but `fd`. */
  ghost predicate SameElsewhere(a: map<RawFd, EpollEvent>, b: map<RawFd, EpollEvent>, fd: RawFd) {
    forall x :: x != fd ==> (x in a <==> x in b) && (x in a && x in b ==> a[x] == b[x])
  }

  /** The kernel: Add takes an open descriptor that is not watched, Modify and Delete one that
      is; a refusal changes nothing, and no operation concerns any other descriptor. */
  lemma KernelContract(k: Kernel, op: ControlOperation, fd: RawFd, e: EpollEvent)
    ensures
      var (k', ok) := Ctl(k, op, fd, e);
      && ok == (if op == Add then fd in k.open && fd !in k.interest else fd in k.interest)
      && (!ok ==> k' == k)
      && (ok ==> (fd in k'.interest <==> op != Delete))
      && (ok && op != Delete ==> k'.interest[fd] == e)
      && SameElsewhere(k.interest, k'.interest, fd) && k'.open == k.open
  {
  }

  /** Opening gives an unused number to the process; closing takes it away, from epoll too. */
  lemma OpeningAndClosing(k: Kernel, fd: RawFd)
    ensures OpenFd(k, fd).1 <==> fd >= 0 && fd !in k.open
    ensures OpenFd(k, fd).1 ==> OpenFd(k, fd).0 == Kernel(k.interest, k.open + {fd})
    ensures CloseFd(k, fd).1 <==> fd in k.open
    ensures CloseFd(k, fd).1 ==>
              && fd !in CloseFd(k, fd).0.interest && CloseFd(k, fd).0.open == k.open - {fd}
              && SameElsewhere(k.interest, CloseFd(k, fd).0.interest, fd)
    ensures !OpenFd(k, fd).1 ==> OpenFd(k, fd).0 == k
    ensures !CloseFd(k, fd).1 ==> CloseFd(k, fd).0 == k
  {
  }

  /** `add` succeeds for an open descriptor that neither a subscriber nor the kernel has; then it
      is watched with the event given, dispatched to the caller and last in its list. */
  lemma AddDoes(w: Wrapper, id: U64, ev: EpollEvent)
    ensures
      var (w', res) := Apply(w, id, OpAdd(ev));
      var fd := Fd(ev);
      && (res == Ok <==> fd !in w.dispatch && fd in w.kernel.open && fd !in w.kernel.interest)
      && (res == Err(FdAlreadyRegistered) <==> fd in w.dispatch)
      && (res != Ok ==> w' == w && (res == Err(FdAlreadyRegistered) || res == Err(Epoll)))
      && (res == Ok ==>
            && fd in w'.kernel.interest && w'.kernel.interest[fd] == ev
            && SameElsewhere(w.kernel.interest, w'.kernel.interest, fd) && w'.kernel.open == w.kernel.open
            && w'.dispatch == w.dispatch[fd := id] && w'.ready == w.ready
            && WatchListOf(w', id) == WatchListOf(w, id) + [fd]
            && forall x :: x != id ==> WatchListOf(w', x) == WatchListOf(w, x))
  {
  }

  /** `modify` succeeds for a watched descriptor, and changes only what it is watched for. */
  lemma ModifyDoes(w: Wrapper, id: U64, ev: EpollEvent)
    ensures
      var (w', res) := Apply(w, id, OpModify(ev));
      var fd := Fd(ev);
      && res == (if fd in w.kernel.interest then Ok else Err(Epoll))
      && (res != Ok ==> w' == w)
      && (res == Ok ==> fd in w'.kernel.interest && w'.kernel.interest[fd] == ev)
      && SameElsewhere(w.kernel.interest, w'.kernel.interest, fd) && w'.kernel.open == w.kernel.open
      && w'.dispatch == w.dispatch && w'.watch == w.watch && w'.ready == w.ready
  {
  }

  /** `remove` succeeds for a watched descriptor; then it is neither watched nor dispatched nor
      pending, and the caller's list has lost its first mention. Other lists stay. */
  lemma RemoveDoes(w: Wrapper, id: U64, ev: EpollEvent)
    ensures
      var (w', res) := Apply(w, id, OpRemove(ev));
      var fd := Fd(ev);
      && res == (if fd in w.kernel.interest then Ok else Err(Epoll))
      && (res != Ok ==> w' == w)
      && (res == Ok ==>
            && fd !in w'.kernel.interest && fd !in w'.dispatch
            && SameElsewhere(w.kernel.interest, w'.kernel.interest, fd) && w'.kernel.open == w.kernel.open
            && w'.dispatch.Keys == w.dispatch.Keys - {fd}
            && (forall x :: x in w'.dispatch ==> w'.dispatch[x] == w.dispatch[x])
            && |w'.ready| == |w.ready|
            && (forall j :: 0 <= j < |w.ready| ==>
                  w'.ready[j] == if Fd(w.ready[j]) == fd then DEFAULT_EVENT else w.ready[j])
            && WatchListOf(w', id) == RemoveFirst(WatchListOf(w, id), fd)
            && forall x :: x != id ==> WatchListOf(w', x) == WatchListOf(w, x))
  {
  }

  // ---------- invariants ----------

  /** What holds whatever callbacks do: a dispatched descriptor is in its owner's watch
      list, and everything the kernel watches is dispatched or is the channel. */
  ghost predicate Indexed(w: Wrapper, chan: RawFd) {
    && chan >= 0
    && chan in w.kernel.interest && w.kernel.interest[chan] == EpollEvent(IN, chan)
    && chan !in w.dispatch
    && w.kernel.interest.Keys <= w.kernel.open
    && (forall fd :: fd in w.kernel.open ==> fd >= 0)
    && (forall fd :: fd in w.kernel.interest ==> Fd(w.kernel.interest[fd]) == fd)
    && (forall fd :: fd in w.kernel.interest && fd != chan ==> fd in w.dispatch)
    && (forall fd :: fd in w.dispatch ==> w.dispatch[fd] in w.watch && fd in w.watch[w.dispatch[fd]])
    && (forall id :: id in w.watch ==> chan !in w.watch[id])
  }

  ghost predicate NoDuplicates(fds: seq<RawFd>) {
    forall i, j :: 0 <= i < j < |fds| ==> fds[i] != fds[j]
  }

  /** The converse: watch lists hold no stale and no repeated descriptor. With `Indexed`
      this makes the two maps exact inverses. */
  ghost predicate Exact(w: Wrapper) {
    forall id :: id in w.watch ==>
      && NoDuplicates(w.watch[id])
      && (forall fd :: fd in w.watch[id] ==> fd in w.dispatch && w.dispatch[fd] == id)
  }

  /** The kernel watches nothing less than what is dispatched. */
  ghost predicate Watched(w: Wrapper) {
    w.dispatch.Keys <= w.kernel.interest.Keys
  }

  /** A `remove` that the kernel accepts names a registration of the caller's own. */
  predicate Owned(w: Wrapper, id: U64, op: Op) {
    op.OpRemove? && Fd(op.ev) in w.kernel.interest && Fd(op.ev) in w.dispatch ==> w.dispatch[Fd(op.ev)] == id
  }

  // ---------- one operation ----------

  lemma RemoveFirstKeepsOthers(fds: seq<RawFd>, fd: RawFd)
    ensures forall x :: x != fd ==> (x in RemoveFirst(fds, fd) <==> x in fds)
  {
  }

  lemma {:induction false} RemoveFirstOfDistinct(fds: seq<RawFd>, fd: RawFd)
    requires NoDuplicates(fds)
    ensures NoDuplicates(RemoveFirst(fds, fd)) && fd !in RemoveFirst(fds, fd)
    ensures forall x :: x in RemoveFirst(fds, fd) ==> x in fds
  {
    if fds != [] && fds[0] != fd {
      RemoveFirstOfDistinct(fds[1..], fd);
      var rest := RemoveFirst(fds[1..], fd);
      assert forall x :: x in rest ==> x in fds[1..];
      assert fds[0] !in rest;
      forall i, j | 0 <= i < j < |[fds[0]] + rest| ensures ([fds[0]] + rest)[i] != ([fds[0]] + rest)[j] {
        if i == 0 { assert rest[j - 1] in rest; }
      }
    } else if fds != [] {
      assert forall x :: x in fds[1..] ==> x in fds;
    }
  }

  lemma AddKeepsIndexed(w: Wrapper, chan: RawFd, id: U64, ev: EpollEvent)
    requires Indexed(w, chan)
    ensures Indexed(AddEvents(w, id, ev).0, chan)
  {
    var w' := AddEvents(w, id, ev).0;
    forall fd | fd in w'.dispatch ensures w'.dispatch[fd] in w'.watch && fd in w'.watch[w'.dispatch[fd]] {
      if fd != Fd(ev) { assert fd in w.dispatch; }
    }
  }

  lemma RemoveKeepsIndexed(w: Wrapper, chan: RawFd, id: U64, ev: EpollEvent)
    requires Indexed(w, chan) && Fd(ev) != chan
    ensures Indexed(RemoveEvents(w, id, ev).0, chan)
  {
    if id in w.watch {
      RemoveFirstKeepsOthers(w.watch[id], Fd(ev));
    }
  }

  /** Every operation of every callback, owned or not, keeps the index consistent. */
  lemma ApplyKeepsIndexed(w: Wrapper, chan: RawFd, id: U64, op: Op)
    requires Indexed(w, chan) && Polite(chan, op)
    ensures Indexed(Apply(w, id, op).0, chan)
    ensures Apply(w, id, op).0.watch.Keys <= w.watch.Keys + {id}
  {
    match op {
      case OpAdd(ev) => AddKeepsIndexed(w, chan, id, ev);
      case OpRemove(ev) => RemoveKeepsIndexed(w, chan, id, ev);
      case _ =>
    }
  }

  lemma AddKeepsExact(w: Wrapper, chan: RawFd, id: U64, ev: EpollEvent)
    requires Indexed(w, chan) && Exact(w)
    ensures Exact(AddEvents(w, id, ev).0)
  {
    var w' := AddEvents(w, id, ev).0;
    if w' != w {
      assert Fd(ev) !in WatchListOf(w, id);
      assert w'.watch[id] == WatchListOf(w, id) + [Fd(ev)];
    }
  }

  lemma OwnedRemoveKeepsExact(w: Wrapper, chan: RawFd, id: U64, ev: EpollEvent)
    requires Indexed(w, chan) && Exact(w) && Fd(ev) != chan && Owned(w, id, OpRemove(ev))
    ensures Exact(RemoveEvents(w, id, ev).0)
  {
    if id in w.watch {
      RemoveFirstOfDistinct(w.watch[id], Fd(ev));
      RemoveFirstKeepsOthers(w.watch[id], Fd(ev));
    }
  }

  lemma UnownedRemoveLosesExact(w: Wrapper, chan: RawFd, id: U64, ev: EpollEvent)
    requires Indexed(w, chan) && Exact(w) && !Owned(w, id, OpRemove(ev))
    ensures !Exact(RemoveEvents(w, id, ev).0)
  {
    var owner := w.dispatch[Fd(ev)];
    assert Fd(ev) in RemoveEvents(w, id, ev).0.watch[owner];
  }

  /** An operation keeps the two maps exact inverses if and only if it is not a `remove` of a
      descriptor that the kernel watches for another subscriber. */
  lemma ApplyKeepsExactIff(w: Wrapper, chan: RawFd, id: U64, op: Op)
    requires Indexed(w, chan) && Polite(chan, op) && Exact(w)
    ensures Exact(Apply(w, id, op).0) <==>
              !(op.OpRemove? && Fd(op.ev) in w.kernel.interest && w.dispatch[Fd(op.ev)] != id)
    ensures Exact(Apply(w, id, op).0) <==> Owned(w, id, op)
  {
    match op {
      case OpAdd(ev) => AddKeepsExact(w, chan, id, ev);
      case OpRemove(ev) =>
        if Owned(w, id, op) {
          OwnedRemoveKeepsExact(w, chan, id, ev);
        } else {
          UnownedRemoveLosesExact(w, chan, id, ev);
        }
      case _ =>
    }
  }

  /** As long as no descriptor is closed while registered, the kernel interest set is
      exactly the dispatched descriptors and the channel. */
  lemma ApplyKeepsWatched(w: Wrapper, chan: RawFd, id: U64, op: Op)
    requires Indexed(w, chan) && Polite(chan, op) && Watched(w)
    requires op.Close? ==> op.fd !in w.dispatch
    ensures Watched(Apply(w, id, op).0)
  {
  }

  /** `FdAlreadyRegistered` is returned exactly when the kernel's own Add of a
      descriptor other than the channel would have collided. */
  lemma AlreadyRegisteredIffCollision(w: Wrapper, chan: RawFd, id: U64, ev: EpollEvent)
    requires Indexed(w, chan) && Watched(w)
    ensures Apply(w, id, OpAdd(ev)).1 == Err(FdAlreadyRegistered) <==> Fd(ev) in w.kernel.interest && Fd(ev) != chan
  {
  }

  /** In general that is so if and only if the descriptor is not registered while the kernel
      has dropped it, which is what closing it does. */
  lemma AlreadyRegisteredIffNotDropped(w: Wrapper, chan: RawFd, id: U64, ev: EpollEvent)
    requires Indexed(w, chan)
    ensures (Apply(w, id, OpAdd(ev)).1 == Err(FdAlreadyRegistered) <==> Fd(ev) in w.kernel.interest && Fd(ev) != chan)
            <==> !(Fd(ev) in w.dispatch && Fd(ev) !in w.kernel.interest)
    ensures Fd(ev) in w.dispatch && Fd(ev) !in w.kernel.interest ==>
              && Apply(w, id, OpAdd(ev)) == (w, Err(FdAlreadyRegistered))
              && Apply(w, id, OpRemove(ev)) == (w, Err(Epoll))
  {
  }

  /** That state is reached by operations the crate accepts: a subscriber adds a descriptor and
      closes it, the process is given the same number again, and `add` refuses it although
      the kernel would take it. */
  lemma ReopenedDescriptorIsRefused(chan: RawFd, fd: RawFd, data: U32, id: U64)
    requires chan >= 0 && fd >= 0 && fd != chan && WithDataRaw(fd, data, IN).Some?
    ensures
      var ev := WithDataRaw(fd, data, IN).value;
      var w0 := Wrapper(Kernel(map[chan := EpollEvent(IN, chan)], {chan, fd}), map[], map[], []);
      var (w1, added) := Apply(w0, id, OpAdd(ev));
      var (w2, closed) := Apply(w1, id, Close(fd));
      var (w3, reopened) := Apply(w2, id, Open(fd));
      && Indexed(w0, chan) && Indexed(w3, chan)
      && added == closed == reopened == Ok
      && Apply(w3, id, OpAdd(ev)) == (w3, Err(FdAlreadyRegistered))
      && Ctl(w3.kernel, Add, fd, ev).1
  {
    PackReadsBack(fd, data, IN);
    var ev := WithDataRaw(fd, data, IN).value;
    var w0 := Wrapper(Kernel(map[chan := EpollEvent(IN, chan)], {chan, fd}), map[], map[], []);
    var w1 := Apply(w0, id, OpAdd(ev)).0;
    ApplyKeepsIndexed(w0, chan, id, OpAdd(ev));
    ApplyKeepsIndexed(w1, chan, id, Close(fd));
    ApplyKeepsIndexed(Apply(w1, id, Close(fd)).0, chan, id, Open(fd));
  }

  // ---------- removing a subscriber ----------

  lemma {:induction false} RemoveAllIs(w: Wrapper, fds: seq<RawFd>)
    ensures
      var w' := RemoveAll(w, fds);
      var gone := set fd | fd in fds;
      && w'.kernel == Kernel(w.kernel.interest - gone, w.kernel.open)
      && w'.dispatch == w.dispatch - gone
      && w'.watch == w.watch
      && |w'.ready| == |w.ready|
      && forall j :: 0 <= j < |w.ready| ==> w'.ready[j] == if Fd(w.ready[j]) in fds then DEFAULT_EVENT else w.ready[j]
    decreases |fds|
  {
    if fds != [] {
      var w1 := RemoveEvent(w.(kernel := Ctl(w.kernel, Delete, fds[0], DEFAULT_EVENT).0), fds[0]);
      RemoveAllIs(w1, fds[1..]);
      assert (set fd | fd in fds) == {fds[0]} + (set fd | fd in fds[1..]);
      assert w1.kernel == Kernel(w.kernel.interest - {fds[0]}, w.kernel.open);
      forall j | 0 <= j < |w.ready|
        ensures RemoveAll(w, fds).ready[j] == if Fd(w.ready[j]) in fds then DEFAULT_EVENT else w.ready[j]
      {
        assert Fd(w.ready[j]) in fds <==> Fd(w.ready[j]) == fds[0] || Fd(w.ready[j]) in fds[1..];
      }
    }
  }

  /** After a subscriber is removed nothing of it is left: no descriptor dispatches to
      it, and none of its descriptors is watched, dispatched or pending. */
  lemma RemovalIsComplete(w: Wrapper, chan: RawFd, id: U64)
    requires Indexed(w, chan)
    ensures
      var w' := RemoveSubscriber(w, id);
      && Indexed(w', chan)
      && w'.watch == w.watch - {id} && |w'.ready| == |w.ready|
      && (forall fd :: fd in w'.dispatch ==> w'.dispatch[fd] != id)
      && (forall fd :: fd in WatchListOf(w, id) || (fd in w.dispatch && w.dispatch[fd] == id) ==>
            && fd !in w'.kernel.interest
            && fd !in w'.dispatch
            && (forall j :: 0 <= j < |w.ready| && Fd(w.ready[j]) == fd ==> w'.ready[j] == DEFAULT_EVENT))
  {
    RemoveAllIs(w.(watch := w.watch - {id}), WatchListOf(w, id));
  }

  /** What survives the removal of `id`, for any callbacks: precisely the registrations
      that its watch list does not name. */
  lemma RemovalSparesOthersIff(w: Wrapper, chan: RawFd, id: U64, fd: RawFd)
    requires Indexed(w, chan)
    requires fd in w.dispatch && w.dispatch[fd] != id
    ensures
      var w' := RemoveSubscriber(w, id);
      && (fd in w'.dispatch <==> fd !in WatchListOf(w, id))
      && (fd in w'.dispatch ==> w'.dispatch[fd] == w.dispatch[fd])
  {
    RemoveAllIs(w.(watch := w.watch - {id}), WatchListOf(w, id));
  }

  /** When callbacks only remove what is theirs, removing one subscriber leaves every
      other registration, watch list and pending event as it was. */
  lemma RemovalFrame(w: Wrapper, chan: RawFd, id: U64)
    requires Indexed(w, chan) && Exact(w)
    ensures
      var w' := RemoveSubscriber(w, id);
      && Exact(w') && |w'.ready| == |w.ready|
      && (Watched(w) ==> Watched(w'))
      && (forall fd :: fd in w.dispatch && w.dispatch[fd] != id ==>
            fd in w'.dispatch && w'.dispatch[fd] == w.dispatch[fd])
      && (forall other :: other != id && other in w.watch ==> other in w'.watch && w'.watch[other] == w.watch[other])
      && (forall fd :: fd in w.kernel.interest && (fd in w.dispatch ==> w.dispatch[fd] != id) ==>
            fd in w'.kernel.interest && w'.kernel.interest[fd] == w.kernel.interest[fd])
      && (forall j :: 0 <= j < |w.ready| && (Fd(w.ready[j]) in w.dispatch ==> w.dispatch[Fd(w.ready[j])] != id) ==>
            w'.ready[j] == w.ready[j])
  {
    RemoveAllIs(w.(watch := w.watch - {id}), WatchListOf(w, id));
  }

  /** Without that discipline the frame fails: subscriber 2 removes and re-adds a
      descriptor of subscriber 1; removing 1 then silences 2. */
  lemma UnownedRemovalBreaksFrame(chan: RawFd, fd: RawFd, data: U32)
    requires chan >= 0 && fd >= 0 && fd != chan && WithDataRaw(fd, data, IN).Some?
    ensures
      var ev := WithDataRaw(fd, data, IN).value;
      var w0 := Wrapper(Kernel(map[chan := EpollEvent(IN, chan)], {chan, fd}), map[], map[], []);
      var w1 := Apply(w0, 1, OpAdd(ev)).0;
      var w3 := Apply(Apply(w1, 2, OpRemove(ev)).0, 2, OpAdd(ev)).0;
      && Exact(w1) && !Owned(w1, 2, OpRemove(ev))
      && fd in w3.dispatch && w3.dispatch[fd] == 2 && fd in w3.kernel.interest
      && !Exact(w3)
      && fd !in RemoveSubscriber(w3, 1).dispatch && fd !in RemoveSubscriber(w3, 1).kernel.interest
  {
    PackReadsBack(fd, data, IN);
    var ev := WithDataRaw(fd, data, IN).value;
    var w0 := Wrapper(Kernel(map[chan := EpollEvent(IN, chan)], {chan, fd}), map[], map[], []);
    var w1 := Apply(w0, 1, OpAdd(ev)).0;
    var w3 := Apply(Apply(w1, 2, OpRemove(ev)).0, 2, OpAdd(ev)).0;
    assert w1.watch[1] == [fd];
    assert w3.watch[1] == [fd] && w3.watch[2] == [fd];
    assert fd in w3.watch[1];
    RemoveAllIs(w3.(watch := w3.watch - {1}), WatchListOf(w3, 1));
  }
}
