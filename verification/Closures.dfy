// `SubscriberOps`, and closures that use it: what a remote endpoint sends to the
// manager, and what the owner of the manager does between two runs of the loop
// (src/manager.rs, src/subscribers.rs, src/endpoint.rs).

module Closures {
  import opened EventData
  import opened Index
  import opened Dispatch

  const U64_MAX: U64 := 0xffff_ffff_ffff_ffff

  /** The calls of `SubscriberOps`. `EventOps(id, op)` is `event_ops(id)` followed by one
      operation; opening and closing descriptors needs no id. `AddSubscriber` carries the
      shared state at the moment `init` is called, and its reply the state after. */
  datatype Request<!T, W> =
    | AddSubscriber(t: T, w: W)
    | RemoveSubscriber(id: U64)
    | SubscriberMut(id: U64, update: T -> T)
    | EventOps(id: U64, op: Op)

  /** `None` stands for `Err(InvalidId)`. */
  datatype Reply<T, W> = Added(id: U64, w: W) | Removed(t: Option<T>) | Borrowed(t: Option<T>) | Did(res: Result)

  /** A finite closure: its next request as a function of the replies so far, and the
      shared state and result it ends with. */
  datatype Closure<!T, !W, !V> = Closure(
    move: seq<Reply<T, W>> -> Option<Request<T, W>>,
    outcome: seq<Reply<T, W>> -> (W, V),
    budget: nat)
  {
    predicate Stopped(h: seq<Reply<T, W>>) {
      |h| >= budget || move(h).None?
    }

    function Next(h: seq<Reply<T, W>>): Request<T, W>
      requires !Stopped(h)
    {
      move(h).value
    }
  }

  /** Whether an operation gets as far as the wrapper. */
  predicate Accepted<T, W>(m: Manager<T, W>, id: U64, op: Op) {
    op.Open? || op.Close? || id in m.subscribers
  }

  /** `Subscribers::add`, before `init` runs. */
  function Enrol<T, W>(m: Manager<T, W>, t: T): Manager<T, W>
    requires m.nextId < U64_MAX
  {
    m.(subscribers := m.subscribers[m.nextId := t], nextId := m.nextId + 1)
  }

  /** One request; no reply when `next_id += 1` overflows. */
  function Answer<T, W>(
      beh: Behaviour<T, W>, m: Manager<T, W>, req: Request<T, W>): (Manager<T, W>, Option<Reply<T, W>>) {
    match req
    case AddSubscriber(t, w) =>
      if m.nextId == U64_MAX then (m, None)
      else
        var p := beh.init(t, w);
        var r := Run(Enrol(m, t).ep, m.nextId, p, []);
        FinishInit(Enrol(m, t), m.nextId, p, r)
    case RemoveSubscriber(id) =>
      if id !in m.subscribers then (m, Some(Removed(None)))
      else
        (m.(subscribers := m.subscribers - {id}, ep := Index.RemoveSubscriber(m.ep, id)),
         Some(Removed(Some(m.subscribers[id]))))
    case SubscriberMut(id, update) =>
      if id !in m.subscribers then (m, Some(Borrowed(None)))
      else (m.(subscribers := m.subscribers[id := update(m.subscribers[id])]), Some(Borrowed(Some(m.subscribers[id]))))
    case EventOps(id, op) =>
      if !Accepted(m, id, op) then (m, Some(Did(Err(InvalidId))))
      else var (w, res) := Apply(m.ep, id, op); (m.(ep := w), Some(Did(res)))
  }

  function FinishInit<T, W>(
      m: Manager<T, W>, id: U64, p: Program<(T, W)>, r: Ran): (Manager<T, W>, Option<Reply<T, W>>) {
    var (t, w) := p.outcome(r.history);
    (m.(ep := r.w, subscribers := m.subscribers[id := t]), Some(Added(id, w)))
  }

  /** A whole closure run against the manager, from history `h`; no result when it panics. */
  function RunClosure<T, W, V>(
      beh: Behaviour<T, W>, m: Manager<T, W>, c: Closure<T, W, V>, h: seq<Reply<T, W>>): (Manager<T, W>, Option<V>)
    decreases c.budget - |h|
  {
    if c.Stopped(h) then
      var (w, v) := c.outcome(h);
      (m.(world := w), Some(v))
    else
      var (m1, reply) := Answer(beh, m, c.Next(h));
      if reply.None? then (m1, None) else RunClosure(beh, m1, c, h + [reply.value])
  }

  // ---------- what each request does ----------

  /** `add_subscriber`: the reply is the id under which the table now has the subscriber, as its
      `init` left it; the id is not given out again; nobody else in the table is affected. */
  lemma SubscriberIsAdded<T(!new), W(!new)>(beh: Behaviour<T, W>, m: Manager<T, W>, t: T, w: W)
    requires Inv(m) && m.nextId < U64_MAX
    ensures
      var (m1, reply) := Answer(beh, m, AddSubscriber(t, w));
      var p := beh.init(t, w);
      var ran := Run(m.ep, m.nextId, p, []);
      && reply.Some? && reply.value.Added?
      && var id := reply.value.id;
         && id == m.nextId && id !in m.subscribers && m1.nextId == id + 1
         && m1.subscribers == m.subscribers[id := p.outcome(ran.history).0]
         && reply.value.w == p.outcome(ran.history).1
         && m1.ep == ran.w && (forall d :: d in ran.log ==> d.id == id)
         && m1.chan == m.chan && m1.world == m.world
  {
    LogNamesCaller(m.ep, m.nextId, beh.init(t, w), []);
  }

  lemma {:induction false} LogNamesCaller<R>(w: Wrapper, id: U64, p: Program<R>, h: seq<Result>)
    ensures forall d :: d in Run(w, id, p, h).log ==> d.id == id
    decreases p.budget - |h|
  {
    if !p.Stopped(h) {
      var (w1, res) := Apply(w, id, p.Next(h));
      LogNamesCaller(w1, id, p, h + [res]);
    }
  }

  /** When `next_id` cannot grow, adding a subscriber panics before anything is changed. */
  lemma NoIdNoSubscriber<T(!new), W(!new)>(beh: Behaviour<T, W>, m: Manager<T, W>, t: T, w: W)
    requires m.nextId == U64_MAX
    ensures Answer(beh, m, AddSubscriber(t, w)) == (m, None)
  {
  }

  /** `remove_subscriber`: the reply is the subscriber, which is no longer in the table, and
      nothing of it is left in the index; nobody else in the table is affected. */
  lemma SubscriberIsRemoved<T(!new), W(!new)>(beh: Behaviour<T, W>, m: Manager<T, W>, id: U64)
    requires Inv(m) && id in m.subscribers
    ensures
      var (m1, reply) := Answer(beh, m, RemoveSubscriber(id));
      && reply == Some(Removed(Some(m.subscribers[id])))
      && m1.subscribers == m.subscribers - {id}
      && m1.nextId == m.nextId && m1.chan == m.chan && m1.world == m.world
      && Inv(m1) && id !in m1.ep.watch
      && (forall fd :: fd in m1.ep.dispatch ==> m1.ep.dispatch[fd] != id)
      && (forall fd :: fd in WatchListOf(m.ep, id) ==> fd !in m1.ep.kernel.interest && fd !in m1.ep.dispatch)
  {
    RemovalIsComplete(m.ep, m.chan, id);
  }

  /** `subscriber_mut`: the reply is the subscriber, and a write through it is in the table. */
  lemma SubscriberIsUpdated<T(!new), W(!new)>(beh: Behaviour<T, W>, m: Manager<T, W>, id: U64, update: T -> T)
    requires id in m.subscribers
    ensures
      var (m1, reply) := Answer(beh, m, SubscriberMut(id, update));
      && reply == Some(Borrowed(Some(m.subscribers[id])))
      && m1.subscribers == m.subscribers[id := update(m.subscribers[id])]
      && m1.nextId == m.nextId && m1.ep == m.ep && m1.chan == m.chan && m1.world == m.world
  {
  }

  /** `event_ops`: for a registered id, an operation is carried out on its behalf and is never
      answered with `InvalidId`; the table is not affected. */
  lemma RegisteredIsServed<T(!new), W(!new)>(beh: Behaviour<T, W>, m: Manager<T, W>, id: U64, op: Op)
    requires id in m.subscribers
    ensures
      var (m1, reply) := Answer(beh, m, EventOps(id, op));
      && reply == Some(Did(Apply(m.ep, id, op).1)) && Apply(m.ep, id, op).1 != Err(InvalidId)
      && m1.ep == Apply(m.ep, id, op).0
      && m1.subscribers == m.subscribers && m1.nextId == m.nextId && m1.chan == m.chan && m1.world == m.world
  {
  }

  // ---------- what a closure does ----------

  /** A conversation: each request is answered, in order, by the manager as the one before left
      it. `ms[k]` is the manager after `h[k - 1]`. */
  ghost predicate Conversation<T, W, V>(
      beh: Behaviour<T, W>, c: Closure<T, W, V>, ms: seq<Manager<T, W>>, h: seq<Reply<T, W>>, from: nat) {
    && from <= |h| && |ms| == |h| + 1
    && forall k :: from <= k < |h| ==>
         !c.Stopped(h[..k]) && Answer(beh, ms[k], c.Next(h[..k])) == (ms[k + 1], Some(h[k]))
  }

  /** Running a closure is such a conversation. It ends either when the closure has no request
      left, with the shared state and the result that the replies lead to; or in a panic, at a
      request that gets no reply. */
  lemma {:induction false} ClosureIsAConversation<T(!new), W(!new), V(!new)>(
      beh: Behaviour<T, W>, c: Closure<T, W, V>, ms: seq<Manager<T, W>>, h: seq<Reply<T, W>>)
    returns (ms': seq<Manager<T, W>>, h': seq<Reply<T, W>>)
    requires Conversation(beh, c, ms, h, 0)
    ensures Conversation(beh, c, ms', h', 0) && ms <= ms' && h <= h'
    ensures
      var (m1, v) := RunClosure(beh, ms[|h|], c, h);
      var last := ms'[|h'|];
      if c.Stopped(h') then m1 == last.(world := c.outcome(h').0) && v == Some(c.outcome(h').1)
      else (m1, None) == Answer(beh, last, c.Next(h')) && v == None
    decreases c.budget - |h|
  {
    ms', h' := ms, h;
    if !c.Stopped(h) {
      var (m1, reply) := Answer(beh, ms[|h|], c.Next(h));
      if reply.Some? {
        var h1 := h + [reply.value];
        assert forall k :: 0 <= k <= |h| ==> h1[..k] == h[..k];
        ms', h' := ClosureIsAConversation(beh, c, ms + [m1], h1);
      }
    }
  }

  // ---------- what requests preserve ----------

  predicate PoliteRequest<T, W>(chan: RawFd, req: Request<T, W>) {
    req.EventOps? ==> Polite(chan, req.op)
  }

  lemma EnrolKeepsInv<T(!new), W(!new)>(m: Manager<T, W>, t: T)
    requires Inv(m) && m.nextId < U64_MAX
    ensures Inv(Enrol(m, t))
  {
  }

  /** An id handed out is new in every respect: no subscriber has it, no watch list is
      kept for it and no descriptor dispatches to it. */
  lemma NewIdIsUnused<T(!new), W(!new)>(m: Manager<T, W>)
    requires Inv(m)
    ensures m.nextId !in m.subscribers && m.nextId !in m.ep.watch
    ensures forall fd :: fd in m.ep.dispatch ==> m.ep.dispatch[fd] != m.nextId
  {
  }

  /** The step of every run invariant for closures. */
  lemma RequestKeepsInv<T(!new), W(!new)>(beh: Behaviour<T, W>, m: Manager<T, W>, req: Request<T, W>)
    requires Inv(m) && PoliteRequest(m.chan, req) && !req.AddSubscriber?
    ensures Inv(Answer(beh, m, req).0)
    ensures Answer(beh, m, req).0.nextId == m.nextId && Answer(beh, m, req).0.chan == m.chan
    ensures Answer(beh, m, req).0.subscribers.Keys <= m.subscribers.Keys
  {
    match req {
      case RemoveSubscriber(id) => RemovalIsComplete(m.ep, m.chan, id);
      case EventOps(id, op) => ApplyKeepsIndexed(m.ep, m.chan, id, op);
      case _ =>
    }
  }

  /** What user code does in answering a request leaves the channel alone. */
  ghost predicate PoliteAnswer<T, W>(beh: Behaviour<T, W>, m: Manager<T, W>, req: Request<T, W>) {
    match req
    case AddSubscriber(t, w) =>
      m.nextId < U64_MAX ==> PoliteLog(m.chan, Run(Enrol(m, t).ep, m.nextId, beh.init(t, w), []).log)
    case _ => PoliteRequest(m.chan, req)
  }

  ghost predicate PoliteClosure<T, W, V>(
      beh: Behaviour<T, W>, m: Manager<T, W>, c: Closure<T, W, V>, h: seq<Reply<T, W>>)
    decreases c.budget - |h|
  {
    !c.Stopped(h) ==>
      && PoliteAnswer(beh, m, c.Next(h))
      && var (m1, reply) := Answer(beh, m, c.Next(h));
         reply.Some? ==> PoliteClosure(beh, m1, c, h + [reply.value])
  }

  lemma AnswerKeepsInv<T(!new), W(!new)>(beh: Behaviour<T, W>, m: Manager<T, W>, req: Request<T, W>)
    requires Inv(m) && PoliteAnswer(beh, m, req)
    ensures Inv(Answer(beh, m, req).0) && Answer(beh, m, req).0.chan == m.chan
  {
    if !req.AddSubscriber? {
      RequestKeepsInv(beh, m, req);
    } else if m.nextId < U64_MAX {
      var m1 := Enrol(m, req.t);
      EnrolKeepsInv(m, req.t);
      RunKeeps(m1.ep, m.chan, m.nextId, beh.init(req.t, req.w), [], [], 0, map[], {});
    }
  }

  /** A whole closure, whatever it adds, removes and changes, keeps index and subscriber
      table consistent, also if it panics on the way. */
  lemma {:induction false} ClosureKeepsInv<T(!new), W(!new), V(!new)>(
      beh: Behaviour<T, W>, m: Manager<T, W>, c: Closure<T, W, V>, h: seq<Reply<T, W>>)
    requires Inv(m) && PoliteClosure(beh, m, c, h)
    ensures Inv(RunClosure(beh, m, c, h).0) && RunClosure(beh, m, c, h).0.chan == m.chan
    decreases c.budget - |h|
  {
    if !c.Stopped(h) {
      AnswerKeepsInv(beh, m, c.Next(h));
      var (m1, reply) := Answer(beh, m, c.Next(h));
      if reply.Some? {
        ClosureKeepsInv(beh, m1, c, h + [reply.value]);
      }
    }
  }

  /** An id that is not registered is refused by every call, and nothing changes. */
  lemma UnknownIdIsRefused<T(!new), W(!new)>(
      beh: Behaviour<T, W>, m: Manager<T, W>, id: U64, update: T -> T, ev: EpollEvent)
    requires id !in m.subscribers
    ensures Answer(beh, m, RemoveSubscriber(id)) == (m, Some(Removed(None)))
    ensures Answer(beh, m, SubscriberMut(id, update)) == (m, Some(Borrowed(None)))
    ensures Answer(beh, m, EventOps(id, OpAdd(ev))) == (m, Some(Did(Err(InvalidId))))
    ensures Answer(beh, m, EventOps(id, OpModify(ev))) == (m, Some(Did(Err(InvalidId))))
    ensures Answer(beh, m, EventOps(id, OpRemove(ev))) == (m, Some(Did(Err(InvalidId))))
  {
  }
}
