// One batch of ready events: callbacks as finite programs, the walk of
// `dispatch_events` over a buffer that those callbacks change under it, and what
// that walk amounts to (src/manager.rs, src/epoll.rs).

module Dispatch {
  import opened EventData
  import opened Index

  // ---------- callbacks ----------

  /** What one callback does: its next operation as a function of the results it has
      seen, and what it leaves behind. A callback that returns has made finitely many
      operations, so it is one of these for a large enough `budget`. */
  datatype Program<!R> = Program(move: seq<Result> -> Option<Op>, outcome: seq<Result> -> R, budget: nat) {
    predicate Stopped(h: seq<Result>) {
      |h| >= budget || move(h).None?
    }

    function Next(h: seq<Result>): Op
      requires !Stopped(h)
    {
      move(h).value
    }
  }

  datatype Done = Done(id: U64, op: Op, res: Result)

  datatype Ran = Ran(w: Wrapper, history: seq<Result>, log: seq<Done>)

  /** Runs a program for subscriber `id` from history `h` to its end. */
  function Run<R>(w: Wrapper, id: U64, p: Program<R>, h: seq<Result>): (r: Ran)
    ensures |r.w.ready| == |w.ready|
    decreases p.budget - |h|
  {
    if p.Stopped(h) then Ran(w, h, [])
    else
      var (w1, res) := Apply(w, id, p.Next(h));
      var rest := Run(w1, id, p, h + [res]);
      rest.(log := [Done(id, p.Next(h), res)] + rest.log)
  }

  /** No operation of the log tampers with the channel. */
  ghost predicate PoliteLog(chan: RawFd, log: seq<Done>) {
    forall d :: d in log ==> Polite(chan, d.op)
  }

  // ---------- the manager ----------

  /** The user's `init` and `process`: given the subscriber and whatever state it shares
      with the rest of the world, the program to run, which ends with both updated. */
  datatype Behaviour<!T, !W> = Behaviour(
    init: (T, W) -> Program<(T, W)>,
    process: (T, W, EpollEvent) -> Program<(T, W)>)

  datatype Manager<T, W> = Manager(subscribers: map<U64, T>, nextId: U64, ep: Wrapper, chan: RawFd, world: W)

  datatype Fault = IndexOutOfBounds | UnknownFd | MissingSubscriber | BadChannelEvent | IdOverflow

  /** Holds between any two steps of the manager, whatever user code does. */
  ghost predicate Inv<T, W>(m: Manager<T, W>) {
    && Indexed(m.ep, m.chan)
    && m.ep.watch.Keys <= m.subscribers.Keys
    && m.nextId >= 1
    && (forall id :: id in m.subscribers ==> 1 <= id < m.nextId)
  }

  // ---------- one iteration of the dispatch loop ----------

  datatype Glance = Skip | ToProcess(id: U64) | ToChannel | Broken(fault: Fault)

  /** The branch that the loop body takes for entry `i`. */
  function Look<T, W>(m: Manager<T, W>, i: nat): Glance
    requires i < |m.ep.ready|
  {
    var ev := m.ep.ready[i];
    if ev.events == DEFAULT_EVENT.events && Fd(ev) == Fd(DEFAULT_EVENT) then Skip
    else if Fd(ev) in m.ep.dispatch then
      var id := m.ep.dispatch[Fd(ev)];
      if id in m.subscribers then ToProcess(id) else Broken(MissingSubscriber)
    else if Fd(ev) == m.chan then ToChannel
    else Broken(UnknownFd)
  }

  /** What an iteration did with its entry. */
  datatype Visit =
    | Called(id: U64, ev: EpollEvent, log: seq<Done>)
    | Discarded
    | Deferred(ev: EpollEvent)
    | Failed(fault: Fault)

  ghost predicate PoliteVisit(chan: RawFd, v: Visit) {
    v.Called? ==> PoliteLog(chan, v.log)
  }

  /** The one thing asked of the callbacks of a batch. */
  ghost predicate PoliteVisits(chan: RawFd, vs: seq<Visit>) {
    forall v :: v in vs ==> PoliteVisit(chan, v)
  }

  /** The manager once the callback `p`, having seen `h`, has run to its end. */
  function FinishCallback<T, W>(m: Manager<T, W>, id: U64, p: Program<(T, W)>, h: seq<Result>): (m': Manager<T, W>)
    ensures |m'.ep.ready| == |m.ep.ready|
  {
    var r := Run(m.ep, id, p, h);
    var (t, w) := p.outcome(r.history);
    m.(ep := r.w, subscribers := m.subscribers[id := t], world := w)
  }

  function VisitEntry<T, W>(beh: Behaviour<T, W>, m: Manager<T, W>, i: nat): (r: (Manager<T, W>, Visit))
    requires i < |m.ep.ready|
    ensures |r.0.ep.ready| == |m.ep.ready|
  {
    match Look(m, i)
    case Skip => (m, Discarded)
    case ToChannel => (m, Deferred(m.ep.ready[i]))
    case Broken(f) => (m, Failed(f))
    case ToProcess(id) =>
      var p := beh.process(m.subscribers[id], m.world, m.ep.ready[i]);
      (FinishCallback(m, id, p, []), Called(id, m.ep.ready[i], Run(m.ep, id, p, []).log))
  }

  /** The whole loop from entry `i`. */
  function DispatchFrom<T, W>(beh: Behaviour<T, W>, m: Manager<T, W>, i: nat, n: nat): (r: (Manager<T, W>, seq<Visit>))
    requires i <= n <= |m.ep.ready|
    ensures |r.0.ep.ready| == |m.ep.ready|
    decreases n - i
  {
    if i == n then (m, [])
    else
      var (m1, v) := VisitEntry(beh, m, i);
      if v.Failed? then (m1, [v])
      else
        var (m2, vs) := DispatchFrom(beh, m1, i + 1, n);
        (m2, [v] + vs)
  }

  /** The `endpoint_event` variable after the loop: the last channel event seen. */
  function EndpointEvent(vs: seq<Visit>): Option<EpollEvent> {
    if vs == [] then None
    else if EndpointEvent(vs[1..]).Some? then EndpointEvent(vs[1..])
    else if vs[0].Deferred? then Some(vs[0].ev) else None
  }

  // ---------- what a poll can deliver ----------

  /** The kernel's answer to `wait`: at most a buffer full of distinct watched
      descriptors, each with a non-empty mask and its registered data; the channel's
      eventfd is only ever readable. */
  predicate Polled(w: Wrapper, chan: RawFd, batch: seq<EpollEvent>) {
    && |batch| <= |w.ready|
    && (forall i, j :: 0 <= i < j < |batch| ==> Fd(batch[i]) != Fd(batch[j]))
    && (forall i :: 0 <= i < |batch| ==>
          && batch[i].events != 0
          && Fd(batch[i]) in w.kernel.interest
          && batch[i].data == w.kernel.interest[Fd(batch[i])].data
          && (Fd(batch[i]) == chan ==> batch[i].events == IN))
  }

  /** `wait` overwrites a prefix of the buffer and leaves the rest as it was. */
  function Fill<T, W>(m: Manager<T, W>, batch: seq<EpollEvent>): Manager<T, W>
    requires |batch| <= |m.ep.ready|
  {
    m.(ep := m.ep.(ready := batch + m.ep.ready[|batch|..]))
  }

  // ---------- the walk follows the polled batch ----------

  function RemovedIn(log: seq<Done>): set<RawFd> {
    set d | d in log && d.op.OpRemove? && d.res.Ok? :: Fd(d.op.ev)
  }

  function RemovedBy(v: Visit): set<RawFd> {
    if v.Called? then RemovedIn(v.log) else {}
  }

  /** Descriptors that some callback has successfully removed. */
  function Gone(vs: seq<Visit>): set<RawFd> {
    if vs == [] then {} else RemovedBy(vs[0]) + Gone(vs[1..])
  }

  /** How an entry of the polled batch must be treated, given who owned its descriptor at
      the poll and what has been removed since. The buffer is not mentioned. */
  predicate AsPolled(v: Visit, ev: EpollEvent, owner: map<RawFd, U64>, chan: RawFd, gone: set<RawFd>) {
    if Fd(ev) == chan then v == Deferred(ev)
    else if Fd(ev) in gone then v == Discarded
    else v.Called? && v.ev == ev && Fd(ev) in owner && v.id == owner[Fd(ev)]
  }

  /** The loop invariant: the entries still to come are as polled except for those removed
      since, and the others still belong to their owner at the poll. */
  ghost predicate Pending(
      w: Wrapper, chan: RawFd, batch: seq<EpollEvent>, i: nat, owner: map<RawFd, U64>, gone: set<RawFd>) {
    && |batch| <= |w.ready|
    && chan !in gone
    && (forall j :: 0 <= j < |batch| ==> batch[j].events != 0)
    && (forall j, k :: 0 <= j < k < |batch| ==> Fd(batch[j]) != Fd(batch[k]))
    && (forall j :: i <= j < |batch| ==>
          if Fd(batch[j]) in gone then w.ready[j] == DEFAULT_EVENT
          else
            && w.ready[j] == batch[j]
            && (Fd(batch[j]) != chan ==>
                  && Fd(batch[j]) in w.dispatch && Fd(batch[j]) in owner
                  && w.dispatch[Fd(batch[j])] == owner[Fd(batch[j])]))
  }

  lemma ApplyKeepsPending(
      w: Wrapper, chan: RawFd, id: U64, op: Op, batch: seq<EpollEvent>, i: nat, owner: map<RawFd, U64>,
      gone: set<RawFd>)
    requires Pending(w, chan, batch, i, owner, gone) && Polite(chan, op)
    ensures Pending(Apply(w, id, op).0, chan, batch, i, owner, gone + RemovedIn([Done(id, op, Apply(w, id, op).1)]))
  {
    var d := Done(id, op, Apply(w, id, op).1);
    assert RemovedIn([d]) == if op.OpRemove? && d.res.Ok? then {Fd(op.ev)} else {} by {
      assert forall x :: x in [d] <==> x == d;
      if op.OpRemove? && d.res.Ok? {
        assert d in [d];
        assert Fd(op.ev) in RemovedIn([d]);
      }
    }
  }

  lemma RemovedInConcat(a: seq<Done>, b: seq<Done>)
    ensures RemovedIn(a + b) == RemovedIn(a) + RemovedIn(b)
  {
    assert forall d :: d in a + b <==> d in a || d in b;
  }

  /** A whole callback preserves the invariants of the manager and of the batch. */
  lemma {:induction false} RunKeeps<R>(
      w: Wrapper, chan: RawFd, id: U64, p: Program<R>, h: seq<Result>, batch: seq<EpollEvent>, i: nat,
      owner: map<RawFd, U64>, gone: set<RawFd>)
    requires Indexed(w, chan) && PoliteLog(chan, Run(w, id, p, h).log) && Pending(w, chan, batch, i, owner, gone)
    ensures
      var r := Run(w, id, p, h);
      && Indexed(r.w, chan) && r.w.watch.Keys <= w.watch.Keys + {id}
      && Pending(r.w, chan, batch, i, owner, gone + RemovedIn(r.log))
    decreases p.budget - |h|
  {
    if p.Stopped(h) {
      assert gone + RemovedIn([]) == gone;
    } else {
      var op := p.Next(h);
      var (w1, res) := Apply(w, id, op);
      var first := [Done(id, op, res)];
      assert Run(w, id, p, h).log[0] == first[0];
      ApplyKeepsIndexed(w, chan, id, op);
      ApplyKeepsPending(w, chan, id, op, batch, i, owner, gone);
      RunKeeps(w1, chan, id, p, h + [res], batch, i, owner, gone + RemovedIn(first));
      var rest := Run(w1, id, p, h + [res]).log;
      RemovedInConcat(first, rest);
      assert gone + RemovedIn(first) + RemovedIn(rest) == gone + RemovedIn(first + rest);
    }
  }

  /** One iteration treats its entry as polled and keeps the invariants. */
  lemma VisitKeeps<T(!new), W(!new)>(
      beh: Behaviour<T, W>, m: Manager<T, W>, batch: seq<EpollEvent>, i: nat, owner: map<RawFd, U64>, gone: set<RawFd>
  )
    requires Inv(m) && i < |batch| && Pending(m.ep, m.chan, batch, i, owner, gone)
    requires PoliteVisit(m.chan, VisitEntry(beh, m, i).1)
    ensures
      var (m1, v) := VisitEntry(beh, m, i);
      && AsPolled(v, batch[i], owner, m.chan, gone)
      && Inv(m1) && m1.chan == m.chan && m1.subscribers.Keys == m.subscribers.Keys && m1.nextId == m.nextId
      && Pending(m1.ep, m.chan, batch, i + 1, owner, gone + RemovedBy(v))
  {
    var (m1, v) := VisitEntry(beh, m, i);
    if v.Called? {
      var p := beh.process(m.subscribers[v.id], m.world, m.ep.ready[i]);
      RunKeeps(m.ep, m.chan, v.id, p, [], batch, i + 1, owner, gone);
    } else {
      assert gone + RemovedBy(v) == gone;
    }
  }

  /** The visits treat a batch as polled, entry by entry. */
  predicate Follows(vs: seq<Visit>, batch: seq<EpollEvent>, owner: map<RawFd, U64>, chan: RawFd, gone: set<RawFd>) {
    && |vs| == |batch|
    && (vs != [] ==>
          && AsPolled(vs[0], batch[0], owner, chan, gone)
          && Follows(vs[1..], batch[1..], owner, chan, gone + RemovedBy(vs[0])))
  }

  lemma {:induction false} FollowsAt(
      vs: seq<Visit>, batch: seq<EpollEvent>, owner: map<RawFd, U64>, chan: RawFd, gone: set<RawFd>, j: nat)
    requires Follows(vs, batch, owner, chan, gone) && j < |vs|
    ensures AsPolled(vs[j], batch[j], owner, chan, gone + Gone(vs[..j]))
    decreases j
  {
    if j == 0 {
      assert gone + Gone(vs[..0]) == gone;
    } else {
      FollowsAt(vs[1..], batch[1..], owner, chan, gone + RemovedBy(vs[0]), j - 1);
      assert vs[..j][1..] == vs[1..][..j - 1];
      assert gone + RemovedBy(vs[0]) + Gone(vs[1..][..j - 1]) == gone + Gone(vs[..j]);
    }
  }

  lemma FollowsThroughout(vs: seq<Visit>, batch: seq<EpollEvent>, owner: map<RawFd, U64>, chan: RawFd)
    requires Follows(vs, batch, owner, chan, {})
    ensures |vs| == |batch|
    ensures forall j :: 0 <= j < |vs| ==> AsPolled(vs[j], batch[j], owner, chan, Gone(vs[..j]))
  {
    forall j | 0 <= j < |vs| ensures AsPolled(vs[j], batch[j], owner, chan, Gone(vs[..j])) {
      FollowsAt(vs, batch, owner, chan, {}, j);
      assert {} + Gone(vs[..j]) == Gone(vs[..j]);
    }
  }

  lemma {:induction false} DispatchKeeps<T(!new), W(!new)>(
      beh: Behaviour<T, W>, m: Manager<T, W>, batch: seq<EpollEvent>, i: nat, owner: map<RawFd, U64>, gone: set<RawFd>
  )
    requires Inv(m) && i <= |batch| && Pending(m.ep, m.chan, batch, i, owner, gone)
    requires PoliteVisits(m.chan, DispatchFrom(beh, m, i, |batch|).1)
    ensures
      var (m', vs) := DispatchFrom(beh, m, i, |batch|);
      && Inv(m') && m'.chan == m.chan && m'.subscribers.Keys == m.subscribers.Keys && m'.nextId == m.nextId
      && Follows(vs, batch[i..], owner, m.chan, gone)
    decreases |batch| - i
  {
    if i < |batch| {
      var (m1, v) := VisitEntry(beh, m, i);
      assert DispatchFrom(beh, m, i, |batch|).1[0] == v;
      VisitKeeps(beh, m, batch, i, owner, gone);
      DispatchKeeps(beh, m1, batch, i + 1, owner, gone + RemovedBy(v));
      assert batch[i..][1..] == batch[i + 1..];
      var rest := DispatchFrom(beh, m1, i + 1, |batch|).1;
      assert ([v] + rest)[1..] == rest;
    }
  }

  lemma FilledIsPending<T, W>(m: Manager<T, W>, batch: seq<EpollEvent>)
    requires Inv(m) && Polled(m.ep, m.chan, batch)
    ensures Inv(Fill(m, batch)) && Pending(Fill(m, batch).ep, m.chan, batch, 0, m.ep.dispatch, {})
  {
  }

  /** The main result about a batch. For arbitrary callbacks the soft deletion done in
      place amounts to this: the polled events are handled in order, each goes once to
      the subscriber that owned its descriptor at the poll, except that a descriptor
      removed by an earlier callback of the batch is passed over, even if it has been
      added again since, and the channel's event is set aside. No `unreachable!` or
      `unwrap` is hit, and the set of subscribers does not change. */
  lemma DispatchFollowsBatch<T(!new), W(!new)>(beh: Behaviour<T, W>, m: Manager<T, W>, batch: seq<EpollEvent>)
    requires Inv(m) && Polled(m.ep, m.chan, batch)
    requires PoliteVisits(m.chan, DispatchFrom(beh, Fill(m, batch), 0, |batch|).1)
    ensures
      var (m', vs) := DispatchFrom(beh, Fill(m, batch), 0, |batch|);
      && |vs| == |batch|
      && (forall j :: 0 <= j < |vs| ==> AsPolled(vs[j], batch[j], m.ep.dispatch, m.chan, Gone(vs[..j])))
      && Inv(m') && m'.subscribers.Keys == m.subscribers.Keys && |m'.ep.ready| == |m.ep.ready|
  {
    FilledIsPending(m, batch);
    DispatchKeeps(beh, Fill(m, batch), batch, 0, m.ep.dispatch, {});
    assert batch[0..] == batch;
    FollowsThroughout(DispatchFrom(beh, Fill(m, batch), 0, |batch|).1, batch, m.ep.dispatch, m.chan);
  }

  // ---------- conservation ----------

  function Calls(vs: seq<Visit>): nat {
    if vs == [] then 0 else (if vs[0].Called? then 1 else 0) + Calls(vs[1..])
  }

  function Discards(vs: seq<Visit>): nat {
    if vs == [] then 0 else (if vs[0].Discarded? then 1 else 0) + Discards(vs[1..])
  }

  function Deferrals(vs: seq<Visit>): nat {
    if vs == [] then 0 else (if vs[0].Deferred? then 1 else 0) + Deferrals(vs[1..])
  }

  lemma {:induction false} CountVisits(vs: seq<Visit>)
    requires forall j :: 0 <= j < |vs| ==> !vs[j].Failed?
    requires forall j, k :: 0 <= j < k < |vs| ==> !(vs[j].Deferred? && vs[k].Deferred?)
    ensures |vs| == Calls(vs) + Discards(vs) + Deferrals(vs)
    ensures Deferrals(vs) == if exists j :: 0 <= j < |vs| && vs[j].Deferred? then 1 else 0
  {
    if vs != [] {
      CountVisits(vs[1..]);
      if exists j :: 0 <= j < |vs| && vs[j].Deferred? {
        var j :| 0 <= j < |vs| && vs[j].Deferred?;
        if j > 0 { assert vs[1..][j - 1].Deferred?; }
        if vs[0].Deferred? { assert forall k :: 0 <= k < |vs[1..]| ==> vs[1..][k] == vs[k + 1]; }
      }
    }
  }

  lemma {:induction false} CallsAreAll(vs: seq<Visit>)
    ensures Calls(vs) <= |vs|
    ensures Calls(vs) == |vs| <==> forall j :: 0 <= j < |vs| ==> vs[j].Called?
  {
    if vs != [] {
      CallsAreAll(vs[1..]);
      assert (forall j :: 0 <= j < |vs| ==> vs[j].Called?)
        <==> vs[0].Called? && forall j :: 0 <= j < |vs[1..]| ==> vs[1..][j].Called? by {
        assert forall j :: 1 <= j < |vs| ==> vs[j] == vs[1..][j - 1];
      }
    }
  }

  lemma VisitsAddUp(vs: seq<Visit>, batch: seq<EpollEvent>, owner: map<RawFd, U64>, chan: RawFd)
    requires |vs| == |batch|
    requires forall i, j :: 0 <= i < j < |batch| ==> Fd(batch[i]) != Fd(batch[j])
    requires forall j :: 0 <= j < |vs| ==> AsPolled(vs[j], batch[j], owner, chan, Gone(vs[..j]))
    ensures |batch| == Calls(vs) + Discards(vs)
                       + (if exists j :: 0 <= j < |batch| && Fd(batch[j]) == chan then 1 else 0)
    ensures forall j :: 0 <= j < |vs| ==> (vs[j].Discarded? <==> Fd(batch[j]) in Gone(vs[..j]) && Fd(batch[j]) != chan)
    ensures Calls(vs) == |batch|
            <==> forall j :: 0 <= j < |batch| ==> Fd(batch[j]) != chan && Fd(batch[j]) !in Gone(vs[..j])
  {
    assert forall j :: 0 <= j < |vs| ==> (vs[j].Deferred? <==> Fd(batch[j]) == chan);
    assert forall j :: 0 <= j < |vs| ==> (vs[j].Called? <==> Fd(batch[j]) != chan && Fd(batch[j]) !in Gone(vs[..j]));
    CountVisits(vs);
    CallsAreAll(vs);
  }

  /** The event count that `run_with_timeout` returns is the number of `process` calls,
      plus the events discarded because an earlier callback removed their descriptor,
      plus one if the channel was ready. It is the number of dispatched events, as its
      documentation says, if and only if there were no events of the last two kinds. */
  lemma BatchConservation<T(!new), W(!new)>(beh: Behaviour<T, W>, m: Manager<T, W>, batch: seq<EpollEvent>)
    requires Inv(m) && Polled(m.ep, m.chan, batch)
    requires PoliteVisits(m.chan, DispatchFrom(beh, Fill(m, batch), 0, |batch|).1)
    ensures
      var vs := DispatchFrom(beh, Fill(m, batch), 0, |batch|).1;
      && |batch| == Calls(vs) + Discards(vs) + (if exists j :: 0 <= j < |batch| && Fd(batch[j]) == m.chan then 1 else 0)
      && |vs| == |batch|
      && (forall j :: 0 <= j < |vs| ==> (vs[j].Discarded? <==> Fd(batch[j]) in Gone(vs[..j]) && Fd(batch[j]) != m.chan))
      && (Calls(vs) == |batch|
          <==> forall j :: 0 <= j < |batch| ==> Fd(batch[j]) != m.chan && Fd(batch[j]) !in Gone(vs[..j]))
  {
    DispatchFollowsBatch(beh, m, batch);
    VisitsAddUp(DispatchFrom(beh, Fill(m, batch), 0, |batch|).1, batch, m.ep.dispatch, m.chan);
  }

  /** No `process` of this behaviour ever calls `remove`. */
  ghost predicate NeverRemoves<T(!new), W(!new)>(beh: Behaviour<T, W>) {
    forall t, w, ev :: NoRemoval(beh.process(t, w, ev))
  }

  ghost predicate NoRemoval<R(!new)>(p: Program<R>) {
    forall h :: !p.Stopped(h) ==> !p.Next(h).OpRemove?
  }

  lemma {:induction false} NothingRemoved<R(!new)>(w: Wrapper, id: U64, p: Program<R>, h: seq<Result>)
    requires NoRemoval(p)
    ensures RemovedIn(Run(w, id, p, h).log) == {}
    decreases p.budget - |h|
  {
    if !p.Stopped(h) {
      var (w1, res) := Apply(w, id, p.Next(h));
      NothingRemoved(w1, id, p, h + [res]);
      RemovedInConcat([Done(id, p.Next(h), res)], Run(w1, id, p, h + [res]).log);
    }
  }

  lemma {:induction false} NothingGone<T(!new), W(!new)>(beh: Behaviour<T, W>, m: Manager<T, W>, i: nat, n: nat)
    requires NeverRemoves(beh) && i <= n <= |m.ep.ready|
    ensures forall v :: v in DispatchFrom(beh, m, i, n).1 ==> RemovedBy(v) == {}
    decreases n - i
  {
    if i < n {
      var (m1, v) := VisitEntry(beh, m, i);
      if v.Called? {
        NothingRemoved(m.ep, v.id, beh.process(m.subscribers[v.id], m.world, m.ep.ready[i]), []);
      }
      NothingGone(beh, m1, i + 1, n);
    }
  }

  lemma {:induction false} GoneIsEmpty(vs: seq<Visit>)
    requires forall v :: v in vs ==> RemovedBy(v) == {}
    ensures Gone(vs) == {}
  {
    if vs != [] {
      GoneIsEmpty(vs[1..]);
    }
  }

  lemma NothingRemovedMeansAllCalled(vs: seq<Visit>, batch: seq<EpollEvent>, chan: RawFd)
    requires |vs| == |batch| && forall v :: v in vs ==> RemovedBy(v) == {}
    requires Calls(vs) == |batch|
             <==> forall j :: 0 <= j < |batch| ==> Fd(batch[j]) != chan && Fd(batch[j]) !in Gone(vs[..j])
    ensures Calls(vs) == |batch| <==> forall j :: 0 <= j < |batch| ==> Fd(batch[j]) != chan
  {
    forall j | 0 <= j < |vs| ensures Gone(vs[..j]) == {} {
      GoneIsEmpty(vs[..j]);
    }
  }

  /** What can be said before the run: if subscribers never remove in `process`, the count is
      the number of dispatched events exactly when the channel is not among them. */
  lemma CountIsDispatchedIffNoChannel<T(!new), W(!new)>(beh: Behaviour<T, W>, m: Manager<T, W>, batch: seq<EpollEvent>)
    requires Inv(m) && Polled(m.ep, m.chan, batch) && NeverRemoves(beh)
    requires PoliteVisits(m.chan, DispatchFrom(beh, Fill(m, batch), 0, |batch|).1)
    ensures Calls(DispatchFrom(beh, Fill(m, batch), 0, |batch|).1) == |batch|
            <==> forall j :: 0 <= j < |batch| ==> Fd(batch[j]) != m.chan
  {
    BatchConservation(beh, m, batch);
    var vs := DispatchFrom(beh, Fill(m, batch), 0, |batch|).1;
    NothingGone(beh, Fill(m, batch), 0, |batch|);
    NothingRemovedMeansAllCalled(vs, batch, m.chan);
  }

  /** For instance, when the channel alone is ready, the count is 1 and nothing is
      dispatched. */
  lemma ChannelAloneIsCounted<T(!new), W(!new)>(beh: Behaviour<T, W>, m: Manager<T, W>)
    requires Inv(m) && |m.ep.ready| > 0
    ensures
      var batch := [EpollEvent(IN, m.chan)];
      Polled(m.ep, m.chan, batch) && Calls(DispatchFrom(beh, Fill(m, batch), 0, |batch|).1) == 0 && |batch| == 1
  {
    var batch := [EpollEvent(IN, m.chan)];
    assert Fd(EpollEvent(IN, m.chan)) == m.chan;
    var filled := Fill(m, batch);
    assert filled.ep.ready[0] == batch[0] && Look(filled, 0) == ToChannel;
    assert DispatchFrom(beh, filled, 1, 1) == (filled, []);
    var vs := DispatchFrom(beh, filled, 0, 1).1;
    assert vs[1..] == [];
  }
}
