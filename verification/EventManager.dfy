// The event manager itself: `SubscriberOps`, the dispatch loop over a buffer that its own
// callbacks edit, and the drain of the remote channel (src/manager.rs). Each method is
// proved against the functions of modules Dispatch and Closures; reaching an
// `unreachable!` or a failed unwrap would be a verification error here.

module EventLoop {
  import opened EventData
  import opened Index
  import opened Dispatch
  import opened Closures
  import Protocol
  import opened ProtocolHistory
  import opened Epoll
  import opened SubscriberTable
  import opened Endpoint

  type Msg<!T, !W, !V> = Protocol.Message<T, W, V>

  // ---------- the drain, as a function ----------

  /** Executes messages in order; the results, ending early at one that panics. */
  function RunAll<T, W, V>(
      beh: Behaviour<T, W>, m: Manager<T, W>, msgs: seq<Msg<T, W, V>>): (Manager<T, W>, seq<Option<V>>)
    decreases |msgs|
  {
    if msgs == [] then (m, [])
    else
      var (m1, v) := RunClosure(beh, m, msgs[0].code(m.world), []);
      if v.None? then (m1, [v])
      else var (m2, vs) := RunAll(beh, m1, msgs[1..]); (m2, [v] + vs)
  }

  /** The replies sent for those results: one for each message that asked for it. */
  function Replied<T, W, V>(replies: map<nat, V>, msgs: seq<Msg<T, W, V>>, vs: seq<Option<V>>): map<nat, V>
    decreases |msgs|
  {
    if msgs == [] || vs == [] || vs[0].None? then replies
    else Replied(if msgs[0].call.Some? then replies[msgs[0].call.value := vs[0].value] else replies, msgs[1..], vs[1..])
  }

  ghost predicate NonePanicked<V>(vs: seq<Option<V>>) {
    vs != [] ==> vs[|vs| - 1].Some?
  }

  lemma {:induction false} RunAllLast<T, W, V>(
      beh: Behaviour<T, W>, m: Manager<T, W>, msgs: seq<Msg<T, W, V>>, msg: Msg<T, W, V>)
    requires NonePanicked(RunAll(beh, m, msgs).1)
    ensures |RunAll(beh, m, msgs).1| == |msgs|
    ensures
      var (m1, vs) := RunAll(beh, m, msgs);
      var (m2, v) := RunClosure(beh, m1, msg.code(m1.world), []);
      RunAll(beh, m, msgs + [msg]) == (m2, vs + [v])
    decreases |msgs|
  {
    var all := RunAll(beh, m, msgs + [msg]);
    if msgs == [] {
      var v := RunClosure(beh, m, msg.code(m.world), []).1;
      assert msgs + [msg] == [msg] && [msg][1..] == [];
      assert [v] + [] == [v] && RunAll(beh, m, msgs).1 + [v] == [v];
    } else {
      var (m1, v) := RunClosure(beh, m, msgs[0].code(m.world), []);
      assert (msgs + [msg])[1..] == msgs[1..] + [msg] && (msgs + [msg])[0] == msgs[0];
      var rest := RunAll(beh, m1, msgs[1..]).1;
      assert v.Some? && RunAll(beh, m, msgs).1 == [v] + rest;
      assert rest != [] ==> rest[|rest| - 1] == ([v] + rest)[|rest|];
      RunAllLast(beh, m1, msgs[1..], msg);
      var m2 := RunAll(beh, m1, msgs[1..]).0;
      var last := RunClosure(beh, m2, msg.code(m2.world), []).1;
      assert all.1 == [v] + (rest + [last]) == [v] + rest + [last];
    }
  }

  lemma {:induction false} RepliedLast<T, W, V>(
      beh: Behaviour<T, W>, m: Manager<T, W>, replies: map<nat, V>, msgs: seq<Msg<T, W, V>>, msg: Msg<T, W, V>,
      v: Option<V>)
    requires NonePanicked(RunAll(beh, m, msgs).1)
    ensures
      var vs := RunAll(beh, m, msgs).1;
      var before := Replied(replies, msgs, vs);
      Replied(replies, msgs + [msg], vs + [v]) ==
      if v.Some? && msg.call.Some? then before[msg.call.value := v.value] else before
    decreases |msgs|
  {
    var vs := RunAll(beh, m, msgs).1;
    RunAllLast(beh, m, msgs, msg);
    if msgs != [] {
      var m1 := RunClosure(beh, m, msgs[0].code(m.world), []).0;
      assert (msgs + [msg])[1..] == msgs[1..] + [msg] && (vs + [v])[1..] == vs[1..] + [v];
      RepliedLast(beh, m1, if msgs[0].call.Some? then replies[msgs[0].call.value := vs[0].value] else replies,
                  msgs[1..], msg, v);
    }
  }

  /** The closures of the messages leave the channel's descriptor alone. */
  ghost predicate PoliteMessages<T, W, V>(beh: Behaviour<T, W>, m: Manager<T, W>, msgs: seq<Msg<T, W, V>>)
    decreases |msgs|
  {
    msgs != [] ==>
      && PoliteClosure(beh, m, msgs[0].code(m.world), [])
      && PoliteMessages(beh, RunClosure(beh, m, msgs[0].code(m.world), []).0, msgs[1..])
  }

  lemma {:induction false} RunAllKeepsInv<T(!new), W(!new), V(!new)>(
      beh: Behaviour<T, W>, m: Manager<T, W>, msgs: seq<Msg<T, W, V>>)
    requires Inv(m) && PoliteMessages(beh, m, msgs)
    ensures Inv(RunAll(beh, m, msgs).0) && RunAll(beh, m, msgs).0.chan == m.chan
    decreases |msgs|
  {
    if msgs != [] {
      var c := msgs[0].code(m.world);
      ClosureKeepsInv(beh, m, c, []);
      RunAllKeepsInv(beh, RunClosure(beh, m, c, []).0, msgs[1..]);
    }
  }

  // ---------- a run, as items of the sequential history ----------

  type Item<!T, !W, !V> = Protocol.Item<T, W, V>

  function EntryItems<T, W, V>(i: nat, n: nat): seq<Item<T, W, V>>
    requires i <= n
    decreases n - i
  {
    if i == n then [] else [Protocol.Entry(i, [])] + EntryItems(i + 1, n)
  }

  function ClosureItems<T, W, V>(msgs: seq<Msg<T, W, V>>): seq<Item<T, W, V>> {
    if msgs == [] then [] else [Protocol.Executed(msgs[0].code, true, [])] + ClosureItems(msgs[1..])
  }

  function RunItems<T, W, V>(batch: seq<EpollEvent>, msgs: seq<Msg<T, W, V>>): seq<Item<T, W, V>> {
    [Protocol.Poll(batch)] + EntryItems(0, |batch|) + ClosureItems(msgs)
  }

  lemma {:induction false} ReplayConcat<T, W, V>(
      beh: Behaviour<T, W>, m: Manager<T, W>, a: seq<Item<T, W, V>>, b: seq<Item<T, W, V>>)
    ensures Replay(beh, m, a + b) == Replay(beh, Replay(beh, m, a), b)
    decreases |b|
  {
    if b == [] {
      assert a + b == a;
    } else {
      var front := b[..|b| - 1];
      assert a + b == (a + front) + [b[|b| - 1]] && b == front + [b[|b| - 1]];
      ReplayConcat(beh, m, a, front);
      ReplayLast(beh, m, a + front, b[|b| - 1]);
      ReplayLast(beh, Replay(beh, m, a), front, b[|b| - 1]);
    }
  }

  lemma ReplayFirst<T, W, V>(beh: Behaviour<T, W>, m: Manager<T, W>, item: Item<T, W, V>, rest: seq<Item<T, W, V>>)
    ensures Replay(beh, m, [item] + rest) == Replay(beh, ReplayItem(beh, m, item), rest)
  {
    ReplayConcat(beh, m, [item], rest);
    ReplayLast(beh, m, [], item);
    assert [] + [item] == [item];
  }

  lemma {:induction false} ReplayEntries<T, W, V>(beh: Behaviour<T, W>, m: Manager<T, W>, i: nat, n: nat)
    requires i <= n <= |m.ep.ready|
    requires forall j :: 0 <= j < |DispatchFrom(beh, m, i, n).1| ==> !DispatchFrom(beh, m, i, n).1[j].Failed?
    ensures Replay(beh, m, EntryItems<T, W, V>(i, n)) == DispatchFrom(beh, m, i, n).0
    decreases n - i
  {
    if i < n {
      var (m1, v) := VisitEntry(beh, m, i);
      var vs := DispatchFrom(beh, m, i, n).1;
      assert vs[0] == v;
      var rest := DispatchFrom(beh, m1, i + 1, n).1;
      assert forall j :: 0 <= j < |rest| ==> rest[j] == vs[j + 1];
      ReplayEntries<T, W, V>(beh, m1, i + 1, n);
      ReplayFirst<T, W, V>(beh, m, Protocol.Entry(i, []), EntryItems(i + 1, n));
    }
  }

  lemma {:induction false} ReplayClosures<T, W, V>(beh: Behaviour<T, W>, m: Manager<T, W>, msgs: seq<Msg<T, W, V>>)
    requires NonePanicked(RunAll(beh, m, msgs).1)
    ensures Replay(beh, m, ClosureItems(msgs)) == RunAll(beh, m, msgs).0
    decreases |msgs|
  {
    if msgs != [] {
      var (m1, v) := RunClosure(beh, m, msgs[0].code(m.world), []);
      var rest := RunAll(beh, m1, msgs[1..]).1;
      assert v.Some? && RunAll(beh, m, msgs).1 == [v] + rest;
      assert rest != [] ==> rest[|rest| - 1] == ([v] + rest)[|rest|];
      ReplayClosures(beh, m1, msgs[1..]);
      ReplayFirst(beh, m, Protocol.Executed(msgs[0].code, true, []), ClosureItems(msgs[1..]));
    }
  }

  /** A run of the loop is a stretch of the sequential history: one poll, its entries in
      order, and then the closures of the messages handled. */
  lemma ReplayRun<T, W, V>(beh: Behaviour<T, W>, m: Manager<T, W>, batch: seq<EpollEvent>, msgs: seq<Msg<T, W, V>>)
    requires |batch| <= |m.ep.ready|
    requires
      var (m1, vs) := DispatchFrom(beh, Fill(m, batch), 0, |batch|);
      (forall j :: 0 <= j < |vs| ==> !vs[j].Failed?) && NonePanicked(RunAll(beh, m1, msgs).1)
    ensures Replay(beh, m, RunItems(batch, msgs)) ==
              RunAll(beh, DispatchFrom(beh, Fill(m, batch), 0, |batch|).0, msgs).0
  {
    var filled := Fill(m, batch);
    var m1 := DispatchFrom(beh, filled, 0, |batch|).0;
    var entries := EntryItems<T, W, V>(0, |batch|);
    ReplayFirst(beh, m, Protocol.Poll(batch), entries);
    ReplayEntries<T, W, V>(beh, filled, 0, |batch|);
    ReplayConcat(beh, m, [Protocol.Poll(batch)] + entries, ClosureItems(msgs));
    ReplayClosures(beh, m1, msgs);
  }

  function Concat<A>(parts: seq<seq<A>>): seq<A> {
    if parts == [] then [] else parts[0] + Concat(parts[1..])
  }

  lemma {:induction false} ConcatLast<A>(parts: seq<seq<A>>, last: seq<A>)
    ensures Concat(parts + [last]) == Concat(parts) + last
  {
    if parts != [] {
      assert (parts + [last])[1..] == parts[1..] + [last];
      ConcatLast(parts[1..], last);
    }
  }

  lemma {:induction false} EndpointLast(vs: seq<Visit>, v: Visit)
    ensures EndpointEvent(vs + [v]) == if v.Deferred? then Some(v.ev) else EndpointEvent(vs)
  {
    if vs != [] {
      assert (vs + [v])[1..] == vs[1..] + [v];
      EndpointLast(vs[1..], v);
    }
  }

  lemma Reassociate<A>(a: seq<A>, b: seq<A>, c: seq<A>, d: seq<A>, e: seq<A>)
    requires a + b == c + d
    ensures a + (b + e) == c + (d + e) == a + b + e
  {
    assert a + (b + e) == (a + b) + e;
    assert c + (d + e) == (c + d) + e;
  }

  lemma ConcatTakeOne<A>(parts: seq<seq<A>>, j: nat)
    requires j < |parts|
    ensures Concat(parts[..j + 1]) == Concat(parts[..j]) + parts[j]
    ensures Concat(parts[j..]) == parts[j] + Concat(parts[j + 1..])
  {
    assert parts[..j + 1] == parts[..j] + [parts[j]];
    assert parts[j..][1..] == parts[j + 1..];
    ConcatLast(parts[..j], parts[j]);
  }

  /** Handling `msgs` led from `m0` to `m`, with these results and replies. */
  ghost predicate Drained<T, W, V>(
      beh: Behaviour<T, W>, m0: Manager<T, W>, replies0: map<nat, V>, m: Manager<T, W>, replies: map<nat, V>,
      msgs: seq<Msg<T, W, V>>, vs: seq<Option<V>>) {
    RunAll(beh, m0, msgs) == (m, vs) && replies == Replied(replies0, msgs, vs)
  }

  lemma DrainOne<T, W, V>(
      beh: Behaviour<T, W>, m0: Manager<T, W>, replies0: map<nat, V>, m: Manager<T, W>, replies: map<nat, V>,
      msgs: seq<Msg<T, W, V>>, vs: seq<Option<V>>, msg: Msg<T, W, V>)
    requires Drained(beh, m0, replies0, m, replies, msgs, vs) && NonePanicked(vs)
    ensures
      var (m1, v) := RunClosure(beh, m, msg.code(m.world), []);
      Drained(beh, m0, replies0, m1,
              if v.Some? && msg.call.Some? then replies[msg.call.value := v.value] else replies, msgs + [msg], vs + [v])
  {
    RunAllLast(beh, m0, msgs, msg);
    RepliedLast(beh, m0, replies0, msgs, msg, RunClosure(beh, m, msg.code(m.world), []).1);
  }

  /** The first `i` entries have been visited on the way from `m0` to `m`. */
  ghost predicate Walked<T, W>(
      beh: Behaviour<T, W>, m0: Manager<T, W>, m: Manager<T, W>, i: nat, n: nat, visits: seq<Visit>) {
    && i <= n <= |m0.ep.ready| == |m.ep.ready|
    && var (last, rest) := DispatchFrom(beh, m, i, n);
       DispatchFrom(beh, m0, 0, n) == (last, visits + rest)
  }

  lemma NextIsPolite<T, W>(
      beh: Behaviour<T, W>, m0: Manager<T, W>, m: Manager<T, W>, i: nat, n: nat, visits: seq<Visit>)
    requires Walked(beh, m0, m, i, n, visits) && i < n && PoliteVisits(m0.chan, DispatchFrom(beh, m0, 0, n).1)
    ensures PoliteVisit(m0.chan, VisitEntry(beh, m, i).1)
  {
    assert DispatchFrom(beh, m0, 0, n).1[|visits|] == VisitEntry(beh, m, i).1;
  }

  lemma WalkOn<T, W>(beh: Behaviour<T, W>, m0: Manager<T, W>, m: Manager<T, W>, i: nat, n: nat, visits: seq<Visit>)
    requires Walked(beh, m0, m, i, n, visits) && i < n && !VisitEntry(beh, m, i).1.Failed?
    ensures Walked(beh, m0, VisitEntry(beh, m, i).0, i + 1, n, visits + [VisitEntry(beh, m, i).1])
  {
    var (m1, v) := VisitEntry(beh, m, i);
    var rest := DispatchFrom(beh, m1, i + 1, n).1;
    assert visits + ([v] + rest) == visits + [v] + rest;
  }

  class EventManager<T(!new), W(!new), V(!new)> {
    const subscribers: Subscribers<T>
    const epollContext: EpollWrapper
    const channel: EventManagerChannel<T, W, V>
    const behaviour: Behaviour<T, W>
    const chan: RawFd
    /** State of the user's that subscribers and closures share. */
    var world: W

    ghost function Model(): Manager<T, W>
      reads this, subscribers, epollContext, epollContext.readyEvents
    {
      Manager(subscribers.subscribers, subscribers.nextId, epollContext.Model(), chan, world)
    }

    /** `new_with_capacity`, for a channel descriptor that the process has just opened. */
    constructor (capacity: nat, chan: RawFd, open: set<RawFd>, behaviour: Behaviour<T, W>, world: W)
      requires Protocol.Descriptors(chan, open)
      ensures fresh(subscribers) && fresh(epollContext) && fresh(epollContext.readyEvents) && fresh(channel)
      ensures this.behaviour == behaviour && this.chan == chan
      ensures Model() == Protocol.Fresh(capacity, chan, open, world) && Inv(Model())
      ensures epollContext.readyEvents.Length == capacity
      ensures forall j :: 0 <= j < capacity ==> epollContext.readyEvents[j] == DEFAULT_EVENT
      ensures epollContext.epoll == Kernel(map[chan := EpollEvent(IN, chan)], open)
      ensures epollContext.fdDispatch == map[] && epollContext.subscriberWatchList == map[]
      ensures subscribers.subscribers == map[] && subscribers.nextId == 1 && this.world == world
      ensures channel.queue == [] && channel.counter == 0 && channel.replies == map[]
    {
      subscribers := new Subscribers();
      var wrapper := new EpollWrapper(capacity, open);
      channel := new EventManagerChannel();
      var (k, _) := Index.Ctl(wrapper.epoll, Add, chan, EpollEvent(IN, chan));
      wrapper.epoll := k;
      epollContext := wrapper;
      this.behaviour, this.chan, this.world := behaviour, chan, world;
    }

    /** Runs a callback of subscriber `id` through an `EventOps` handle. */
    method RunProgram<R>(id: U64, p: Program<R>) returns (h: seq<Result>)
      modifies epollContext, epollContext.readyEvents
      ensures epollContext.Model() == Run(old(epollContext.Model()), id, p, []).w
      ensures h == Run(old(epollContext.Model()), id, p, []).history
    {
      var ops := new EventOps(epollContext, id);
      h := [];
      while !p.Stopped(h)
        invariant Run(epollContext.Model(), id, p, h).w == Run(old(epollContext.Model()), id, p, []).w
        invariant Run(epollContext.Model(), id, p, h).history == Run(old(epollContext.Model()), id, p, []).history
        decreases p.budget - |h|
      {
        var res := ops.Do(p.Next(h));
        h := h + [res];
      }
    }

    // ---------- SubscriberOps ----------

    /** The new id and the shared state that `init` leaves; nothing if ids have run out. */
    method AddSubscriber(subscriber: T, shared: W) returns (reply: Option<Reply<T, W>>)
      modifies subscribers, epollContext, epollContext.readyEvents
      ensures (Model(), reply) == Answer(behaviour, old(Model()), Request.AddSubscriber(subscriber, shared))
      ensures reply.None? <==> old(subscribers.nextId) == U64_MAX
      ensures reply.Some? ==>
                && reply.value.Added? && reply.value.id == old(subscribers.nextId)
                && reply.value.id in subscribers.subscribers && subscribers.nextId == reply.value.id + 1
                && forall x :: x != reply.value.id ==>
                     && (x in subscribers.subscribers <==> x in old(subscribers.subscribers))
                     && (x in subscribers.subscribers ==> subscribers.subscribers[x] == old(subscribers.subscribers)[x])
    {
      var id := subscribers.Add(subscriber);
      if id.None? {
        return None;
      }
      var p := behaviour.init(subscriber, shared);
      var h := RunProgram(id.value, p);
      var (t, w) := p.outcome(h);
      subscribers.Store(id.value, t);
      return Some(Added(id.value, w));
    }

    method RemoveSubscriber(id: U64) returns (reply: Option<Reply<T, W>>)
      modifies subscribers, epollContext, epollContext.readyEvents
      ensures (Model(), reply) == Answer(behaviour, old(Model()), Request.RemoveSubscriber(id))
      ensures
        var table := old(subscribers.subscribers);
        reply == Some(Removed(if id in table then Some(table[id]) else None))
      ensures subscribers.subscribers == old(subscribers.subscribers) - {id}
      ensures subscribers.nextId == old(subscribers.nextId)
    {
      var subscriber := subscribers.Remove(id);
      if subscriber.None? {
        assert subscribers.subscribers == old(subscribers.subscribers);
        return Some(Removed(None));
      }
      epollContext.Remove(id);
      return Some(Removed(subscriber));
    }

    method SubscriberMut(id: U64, update: T -> T) returns (reply: Option<Reply<T, W>>)
      modifies subscribers
      ensures (Model(), reply) == Answer(behaviour, old(Model()), Request.SubscriberMut(id, update))
      ensures id !in old(subscribers.subscribers) ==>
                reply == Some(Borrowed(None)) && subscribers.subscribers == old(subscribers.subscribers)
      ensures id in old(subscribers.subscribers) ==>
                && reply == Some(Borrowed(Some(old(subscribers.subscribers)[id])))
                && subscribers.subscribers ==
                   old(subscribers.subscribers)[id := update(old(subscribers.subscribers)[id])]
    {
      var found := subscribers.Contains(id);
      if !found {
        return Some(Borrowed(None));
      }
      var subscriber := subscribers.GetMutUnchecked(id);
      subscribers.Store(id, update(subscriber));
      return Some(Borrowed(Some(subscriber)));
    }

    /** `event_ops(id)` and one operation on the handle. */
    method OnEventOps(id: U64, op: Op) returns (reply: Option<Reply<T, W>>)
      modifies epollContext, epollContext.readyEvents
      ensures (Model(), reply) == Answer(behaviour, old(Model()), Request.EventOps(id, op))
      ensures id in subscribers.subscribers ==>
                && reply.Some? && reply.value.Did?
                && (epollContext.Model(), reply.value.res) == Apply(old(epollContext.Model()), id, op)
      ensures id !in subscribers.subscribers && !op.Open? && !op.Close? ==>
                reply == Some(Did(Err(InvalidId))) && epollContext.Model() == old(epollContext.Model())
    {
      var found := subscribers.Contains(id);
      if !found && !op.Open? && !op.Close? {
        return Some(Did(Err(InvalidId)));
      }
      var ops := new Epoll.EventOps(epollContext, id);
      var res := ops.Do(op);
      return Some(Did(res));
    }

    method Serve(req: Request<T, W>) returns (reply: Option<Reply<T, W>>)
      modifies subscribers, epollContext, epollContext.readyEvents
      ensures (Model(), reply) == Answer(behaviour, old(Model()), req)
    {
      match req {
        case AddSubscriber(t, w) => reply := AddSubscriber(t, w);
        case RemoveSubscriber(id) => reply := RemoveSubscriber(id);
        case SubscriberMut(id, update) => reply := SubscriberMut(id, update);
        case EventOps(id, op) => reply := OnEventOps(id, op);
      }
    }

    /** Calls a closure with the manager; no result if it panics. */
    method CallClosure(c: Closure<T, W, V>) returns (v: Option<V>)
      modifies this`world, subscribers, epollContext, epollContext.readyEvents
      ensures (Model(), v) == RunClosure(behaviour, old(Model()), c, [])
    {
      var h: seq<Reply<T, W>> := [];
      while !c.Stopped(h)
        invariant RunClosure(behaviour, Model(), c, h) == RunClosure(behaviour, old(Model()), c, [])
        decreases c.budget - |h|
      {
        var reply := Serve(c.Next(h));
        if reply.None? {
          return None;
        }
        h := h + [reply.value];
      }
      var (w, value) := c.outcome(h);
      world := w;
      return Some(value);
    }

    // ---------- the event loop ----------

    /** The body of the dispatch loop. */
    method DispatchEvent(evIndex: nat, endpointEvent: Option<EpollEvent>) returns (endpointEvent': Option<EpollEvent>)
      requires evIndex < epollContext.readyEvents.Length
      requires !VisitEntry(behaviour, Model(), evIndex).1.Failed?
      modifies this`world, subscribers, epollContext, epollContext.readyEvents
      ensures evIndex < |old(Model()).ep.ready|
      ensures Model() == VisitEntry(behaviour, old(Model()), evIndex).0
      ensures var v := VisitEntry(behaviour, old(Model()), evIndex).1;
              endpointEvent' == if v.Deferred? then Some(v.ev) else endpointEvent
    {
      endpointEvent' := endpointEvent;
      var event := epollContext.readyEvents[evIndex];
      var fd := Fd(event);
      assert Model().ep.ready[evIndex] == event;
      if event.events == DEFAULT_EVENT.events && fd == Fd(DEFAULT_EVENT) {
        return;
      }
      var id := epollContext.SubscriberId(fd);
      if id.Some? {
        var subscriber := subscribers.GetMutUnchecked(id.value);
        var p := behaviour.process(subscriber, world, event);
        var h := RunProgram(id.value, p);
        var (t, w) := p.outcome(h);
        subscribers.Store(id.value, t);
        world := w;
      } else if fd == chan {
        endpointEvent' := Some(event);
      } else {
        assert false;
      }
    }

    /** Dispatches the first `eventCount` entries of the buffer, which hold `batch` as polled
        when `owner` gave the owner of each descriptor. The callbacks may overwrite entries
        still to come. */
    method DispatchEvents(eventCount: nat, ghost batch: seq<EpollEvent>, ghost owner: map<RawFd, U64>)
      returns (endpointEvent: Option<EpollEvent>, ghost visits: seq<Visit>)
      requires Inv(Model()) && eventCount == |batch| && Pending(epollContext.Model(), chan, batch, 0, owner, {})
      requires PoliteVisits(chan, DispatchFrom(behaviour, Model(), 0, eventCount).1)
      modifies this`world, subscribers, epollContext, epollContext.readyEvents
      ensures eventCount <= |old(Model()).ep.ready|
      ensures (Model(), visits) == DispatchFrom(behaviour, old(Model()), 0, eventCount)
      ensures endpointEvent == EndpointEvent(visits)
    {
      endpointEvent := None;
      visits := [];
      ghost var m0 := Model();
      ghost var gone: set<RawFd> := {};
      var evIndex := 0;
      assert [] + DispatchFrom(behaviour, m0, 0, eventCount).1 == DispatchFrom(behaviour, m0, 0, eventCount).1;
      while evIndex < eventCount
        invariant evIndex <= eventCount
        invariant Inv(Model()) && Pending(Model().ep, chan, batch, evIndex, owner, gone)
        invariant Walked(behaviour, m0, Model(), evIndex, eventCount, visits)
        invariant endpointEvent == EndpointEvent(visits)
      {
        ghost var m := Model();
        ghost var v := VisitEntry(behaviour, m, evIndex).1;
        NextIsPolite(behaviour, m0, m, evIndex, eventCount, visits);
        VisitKeeps(behaviour, m, batch, evIndex, owner, gone);
        EndpointLast(visits, v);
        WalkOn(behaviour, m0, m, evIndex, eventCount, visits);
        endpointEvent := DispatchEvent(evIndex, endpointEvent);
        visits := visits + [v];
        gone := gone + RemovedBy(v);
        evIndex := evIndex + 1;
      }
      assert visits + [] == visits;
    }

    /** One received message: its closure is called, and the result sent if it is wanted. */
    method HandleMessage(msg: Msg<T, W, V>) returns (v: Option<V>)
      modifies this`world, subscribers, epollContext, epollContext.readyEvents, channel`replies
      ensures (Model(), v) == RunClosure(behaviour, old(Model()), msg.code(old(world)), [])
      ensures channel.replies ==
              if v.Some? && msg.call.Some? then old(channel.replies)[msg.call.value := v.value]
              else old(channel.replies)
    {
      v := CallClosure(msg.code(world));
      if v.Some? && msg.call.Some? {
        channel.Reply(msg.call.value, v.value);
      }
    }

    /** The guard of the drain loop and its body. */
    method ReceiveOne() returns (msg: Option<Msg<T, W, V>>, v: Option<V>)
      modifies this`world, subscribers, epollContext, epollContext.readyEvents, channel`queue, channel`replies
      ensures old(channel.queue) == [] ==>
                && msg.None? && channel.queue == []
                && Model() == old(Model()) && channel.replies == old(channel.replies)
      ensures old(channel.queue) != [] ==>
                && msg == Some(old(channel.queue)[0]) && channel.queue == old(channel.queue)[1..]
                && (Model(), v) == RunClosure(behaviour, old(Model()), msg.value.code(old(world)), [])
                && channel.replies ==
                   if v.Some? && msg.value.call.Some? then old(channel.replies)[msg.value.call.value := v.value]
                   else old(channel.replies)
    {
      v := None;
      msg := channel.TryRecv();
      if msg.Some? {
        v := HandleMessage(msg.value);
      }
    }

    /** `handle_endpoint_calls`. `arrivals[j]` is what all threads, running closures included,
        push just before the j-th `try_recv`; the drain ends because there is an end to it.
        Their writes to the eventfd are still to come. */
    method HandleEndpointCalls(arrivals: seq<seq<Msg<T, W, V>>>)
      returns (panicked: bool, ghost taken: nat, ghost handled: seq<Msg<T, W, V>>, ghost values: seq<Option<V>>)
      modifies this`world, subscribers, epollContext, epollContext.readyEvents, channel
      ensures taken <= |arrivals|
      ensures handled + channel.queue == old(channel.queue) + Concat(arrivals[..taken])
      ensures !panicked ==> channel.queue == []
      ensures (Model(), values) == RunAll(behaviour, old(Model()), handled)
      ensures channel.replies == Replied(old(channel.replies), handled, values)
      ensures panicked <==> !NonePanicked(values)
      ensures channel.counter == 0 && channel.nextCall == old(channel.nextCall)
    {
      channel.ReadEventFd();
      panicked := false;
      taken, handled, values := 0, [], [];
      ghost var m0, queue, replies := Model(), channel.queue, channel.replies;
      var j := 0;
      assert arrivals[..0] == [] && arrivals[0..] == arrivals;
      while !panicked
        invariant j <= |arrivals| && taken == j
        invariant handled + channel.queue == queue + Concat(arrivals[..j])
        invariant Drained(behaviour, m0, replies, Model(), channel.replies, handled, values)
        invariant panicked <==> !NonePanicked(values)
        invariant channel.counter == 0 && channel.nextCall == old(channel.nextCall)
        decreases |channel.queue| + |Concat(arrivals[j..])|
      {
        if j < |arrivals| {
          ConcatTakeOne(arrivals, j);
          Reassociate(handled, channel.queue, queue, Concat(arrivals[..j]), arrivals[j]);
          channel.queue := channel.queue + arrivals[j];
          j, taken := j + 1, taken + 1;
        }
        ghost var m, sent, waiting := Model(), channel.replies, channel.queue;
        var msg, v := ReceiveOne();
        if msg.None? {
          break;
        }
        DrainOne(behaviour, m0, replies, m, sent, handled, values, msg.value);
        Reassociate(handled, [msg.value], handled, [msg.value], waiting[1..]);
        assert waiting == [msg.value] + waiting[1..];
        handled := handled + [msg.value];
        values := values + [v];
        panicked := v.None?;
      }
    }

    // ---------- one run ----------

    /** `dispatch_endpoint_event`, for the channel event of a batch. */
    method DispatchEndpointEvent(endpointEvent: Option<EpollEvent>, arrivals: seq<seq<Msg<T, W, V>>>)
      returns (panicked: bool, ghost taken: nat, ghost handled: seq<Msg<T, W, V>>, ghost values: seq<Option<V>>)
      requires endpointEvent.Some? ==> endpointEvent.value.events == IN
      modifies this`world, subscribers, epollContext, epollContext.readyEvents, channel
      ensures taken <= |arrivals|
      ensures endpointEvent.None? ==> handled == [] && !panicked && taken == 0
      ensures handled + channel.queue == old(channel.queue) + Concat(arrivals[..taken])
      ensures endpointEvent.Some? && !panicked ==> channel.queue == []
      ensures channel.counter == (if endpointEvent.Some? then 0 else old(channel.counter))
      ensures channel.nextCall == old(channel.nextCall)
      ensures (Model(), values) == RunAll(behaviour, old(Model()), handled)
      ensures channel.replies == Replied(old(channel.replies), handled, values)
      ensures panicked <==> !NonePanicked(values)
    {
      panicked, taken, handled, values := false, 0, [], [];
      if endpointEvent.Some? {
        if endpointEvent.value.events != IN {
          assert false;
        }
        panicked, taken, handled, values := HandleEndpointCalls(arrivals);
      }
    }

    /** `run_with_timeout`, given what the kernel answers to the poll. The events are handled
        as polled, then, if the channel was among them, every message queued, in order, and
        those that arrive meanwhile; the count of events is returned. */
    method RunWithTimeout(batch: seq<EpollEvent>, arrivals: seq<seq<Msg<T, W, V>>>)
      returns (eventCount: nat, panicked: bool, ghost visits: seq<Visit>,
               ghost taken: nat, ghost handled: seq<Msg<T, W, V>>, ghost values: seq<Option<V>>)
      requires Inv(Model()) && Polled(epollContext.Model(), chan, batch)
      requires PoliteVisits(chan, DispatchFrom(behaviour, Fill(Model(), batch), 0, |batch|).1)
      modifies this`world, subscribers, epollContext, epollContext.readyEvents, channel
      ensures |visits| == |batch| == eventCount
      ensures forall j :: 0 <= j < |visits| ==>
                AsPolled(visits[j], batch[j], old(epollContext.fdDispatch), chan, Gone(visits[..j]))
      ensures visits == DispatchFrom(behaviour, Fill(old(Model()), batch), 0, |batch|).1
      ensures (Model(), values) ==
              RunAll(behaviour, DispatchFrom(behaviour, Fill(old(Model()), batch), 0, |batch|).0, handled)
      ensures channel.replies == Replied(old(channel.replies), handled, values)
      ensures !panicked ==> Model() == Replay(behaviour, old(Model()), RunItems(batch, handled))
      ensures
        var m1 := DispatchFrom(behaviour, Fill(old(Model()), batch), 0, |batch|).0;
        PoliteMessages(behaviour, m1, handled) ==> Inv(Model())
      ensures taken <= |arrivals| && handled + channel.queue == old(channel.queue) + Concat(arrivals[..taken])
      ensures channel.nextCall == old(channel.nextCall)
      ensures
        if exists j :: 0 <= j < |batch| && Fd(batch[j]) == chan
        then channel.counter == 0 && (!panicked ==> channel.queue == [])
        else channel.counter == old(channel.counter) && handled == [] && taken == 0
    {
      ghost var m := Model();
      BatchIsHandled(behaviour, m, batch);
      eventCount := epollContext.Poll(batch);
      assert Model() == Fill(m, batch);
      var endpointEvent;
      endpointEvent, visits := DispatchEvents(eventCount, batch, m.ep.dispatch);
      panicked, taken, handled, values := DispatchEndpointEvent(endpointEvent, arrivals);
      AfterTheBatch(behaviour, m, batch, handled);
    }
  }

  /** What `dispatch_events` may assume of a poll, and what it then amounts to. */
  lemma BatchIsHandled<T(!new), W(!new)>(beh: Behaviour<T, W>, m: Manager<T, W>, batch: seq<EpollEvent>)
    requires Inv(m) && Polled(m.ep, m.chan, batch)
    requires PoliteVisits(m.chan, DispatchFrom(beh, Fill(m, batch), 0, |batch|).1)
    ensures Inv(Fill(m, batch)) && Pending(Fill(m, batch).ep, m.chan, batch, 0, m.ep.dispatch, {})
    ensures
      var (m1, vs) := DispatchFrom(beh, Fill(m, batch), 0, |batch|);
      && Inv(m1) && |vs| == |batch|
      && (forall j :: 0 <= j < |vs| ==> AsPolled(vs[j], batch[j], m.ep.dispatch, m.chan, Gone(vs[..j])))
      && (EndpointEvent(vs).Some? <==> exists j :: 0 <= j < |batch| && Fd(batch[j]) == m.chan)
      && (EndpointEvent(vs).Some? ==> EndpointEvent(vs).value.events == IN)
  {
    FilledIsPending(m, batch);
    DispatchFollowsBatch(beh, m, batch);
    DispatchKeeps(beh, Fill(m, batch), batch, 0, m.ep.dispatch, {});
    assert batch[0..] == batch;
    EndpointIsChannelEvent(DispatchFrom(beh, Fill(m, batch), 0, |batch|).1, batch, m.ep.dispatch, m.chan, {});
  }

  lemma AfterTheBatch<T(!new), W(!new), V(!new)>(
      beh: Behaviour<T, W>, m: Manager<T, W>, batch: seq<EpollEvent>, msgs: seq<Msg<T, W, V>>)
    requires Inv(m) && Polled(m.ep, m.chan, batch)
    requires PoliteVisits(m.chan, DispatchFrom(beh, Fill(m, batch), 0, |batch|).1)
    ensures
      var m1 := DispatchFrom(beh, Fill(m, batch), 0, |batch|).0;
      && (NonePanicked(RunAll(beh, m1, msgs).1) ==> RunAll(beh, m1, msgs).0 == Replay(beh, m, RunItems(batch, msgs)))
      && (PoliteMessages(beh, m1, msgs) ==> Inv(RunAll(beh, m1, msgs).0))
  {
    BatchIsHandled(beh, m, batch);
    var m1 := DispatchFrom(beh, Fill(m, batch), 0, |batch|).0;
    if NonePanicked(RunAll(beh, m1, msgs).1) {
      ReplayRun(beh, m, batch, msgs);
    }
    if PoliteMessages(beh, m1, msgs) {
      RunAllKeepsInv(beh, m1, msgs);
    }
  }

  /** An event is set aside for the endpoint exactly when the channel was polled ready. */
  lemma {:induction false} EndpointIsChannelEvent(
      vs: seq<Visit>, batch: seq<EpollEvent>, owner: map<RawFd, U64>, chan: RawFd, gone: set<RawFd>)
    requires Follows(vs, batch, owner, chan, gone)
    ensures EndpointEvent(vs).Some? <==> exists j :: 0 <= j < |batch| && Fd(batch[j]) == chan
    ensures EndpointEvent(vs).Some? ==>
              exists j :: 0 <= j < |batch| && Fd(batch[j]) == chan && batch[j] == EndpointEvent(vs).value
    decreases |vs|
  {
    if vs != [] {
      EndpointIsChannelEvent(vs[1..], batch[1..], owner, chan, gone + RemovedBy(vs[0]));
      if j :| 0 <= j < |batch[1..]| && Fd(batch[1..][j]) == chan && batch[1..][j] == EndpointEvent(vs[1..]).value {
        assert batch[j + 1] == batch[1..][j];
      }
      assert forall j :: 1 <= j < |batch| ==> batch[j] == batch[1..][j - 1];
    }
  }
}
