// The event manager and any number of threads holding a remote endpoint, as one
// transition system. Pushing a message, bumping the eventfd, reading it, receiving,
// every single operation of a callback or closure, and replying are separate steps, and
// any thread may move between any two of them (src/endpoint.rs, src/manager.rs).

module Protocol {
  import opened EventData
  import opened Index
  import opened Dispatch
  import opened Closures

  // ---------- states ----------

  /** A message: the closure, and the reply channel of the call that waits for it. */
  datatype Message<!T, !W, !V> = Message(code: W -> Closure<T, W, V>, call: Option<nat>)

  /** Where a thread is inside `RemoteEndpoint`: between its push and its write, or blocked
      on its reply channel. `at` is the position of its message among all pushed. */
  datatype Sender = Ready | Sending(call: Option<nat>, at: nat) | Waiting(reply: nat, at: nat)

  /** An eventfd write fails when it would take the counter past this value. */
  const EVENTFD_MAX: nat := 0xffff_ffff_ffff_fffe

  /** The thread that runs the event loop. */
  const MANAGER: nat := 0

  /** `pushed` is every message ever pushed; it is history only. */
  datatype Channel<!T, !W, !V> = Channel(
    queue: seq<Message<T, W, V>>,
    counter: nat,
    senders: map<nat, Sender>,
    replies: map<nat, V>,
    nextCall: nat,
    pushed: seq<Message<T, W, V>>)

  /** On whose behalf a closure runs. */
  datatype Who<!T, !W, !V> = Owner | Remote(msg: Message<T, W, V>)

  /** Where the manager's thread is. */
  datatype Pc<!T, !W, !V> =
    | Idle
    | Crashed(fault: Fault, handling: bool)
    | Dispatching(i: nat, n: nat, endpoint: Option<EpollEvent>)
    | Processing(id: U64, p: Program<(T, W)>, h: seq<Result>, i: nat, n: nat, endpoint: Option<EpollEvent>)
    | Reading
    | Receiving
    | Executing(who: Who<T, W, V>, c: Closure<T, W, V>, past: seq<Reply<T, W>>)
    | Initialising(
        who: Who<T, W, V>, c: Closure<T, W, V>, past: seq<Reply<T, W>>, id: U64, p: Program<(T, W)>, h: seq<Result>)
    | Replying(call: nat, v: V)

  /** What threads outside the manager can do to descriptors and shared state. */
  datatype Effect<W> = Opened(fd: RawFd) | Closed(fd: RawFd) | Shared(w: W)

  /** An outside effect that fell inside a callback or closure: it came when the manager had
      taken `after` steps there since the one before it, or since the start. */
  datatype Interruption<W> = During(after: nat, e: Effect<W>)

  /** The manager's history in whole items: a poll, a dispatch iteration, a closure. */
  datatype Item<!T, !W, !V> =
    | Poll(batch: seq<EpollEvent>)
    | Entry(i: nat, trail: seq<Interruption<W>>)
    | Executed(code: W -> Closure<T, W, V>, remote: bool, trail: seq<Interruption<W>>)
    | Outside(e: Effect<W>)

  /** History only. `ran[k]` is where in `log` the k-th received message started; `since`
      counts the manager's steps since the item under way was last interrupted; `done` is
      every operation on the index; the rest describes the last poll. */
  datatype Past<!T, !W, !V> = Past(
    log: seq<Item<T, W, V>>,
    ran: seq<nat>,
    since: nat,
    done: seq<Done>,
    batch: seq<EpollEvent>,
    before: nat,
    owners: map<RawFd, U64>,
    table: set<U64>)

  datatype Sys<!T, !W, !V> = Sys(m: Manager<T, W>, pc: Pc<T, W, V>, ch: Channel<T, W, V>, past: Past<T, W, V>)

  function SenderOf<T, W, V>(ch: Channel<T, W, V>, tid: nat): Sender {
    if tid in ch.senders then ch.senders[tid] else Ready
  }

  /** The manager's thread is inside code of the user, which may hold an endpoint. */
  predicate InUserCode<T, W, V>(pc: Pc<T, W, V>) {
    pc.Idle? || pc.Processing? || pc.Executing? || pc.Initialising?
  }

  /** A callback or closure is under way. */
  predicate InItem<T, W, V>(pc: Pc<T, W, V>) {
    pc.Processing? || pc.Executing? || pc.Initialising?
  }

  predicate InBatch<T, W, V>(pc: Pc<T, W, V>) {
    pc.Dispatching? || pc.Processing?
  }

  /** From the eventfd read to the `try_recv` that finds the queue empty. */
  predicate Draining<T, W, V>(pc: Pc<T, W, V>) {
    pc.Receiving? || (Busy(pc) && !pc.Crashed?)
  }

  /** A received message is being handled, or was when the manager's thread panicked. */
  predicate Busy<T, W, V>(pc: Pc<T, W, V>) {
    || pc.Replying?
    || (pc.Executing? && pc.who.Remote?)
    || (pc.Initialising? && pc.who.Remote?)
    || (pc.Crashed? && pc.handling)
  }

  /** The operation on the index that the manager is about to make, if any. */
  function NextOp<T, W, V>(m: Manager<T, W>, pc: Pc<T, W, V>): Option<(U64, Op)> {
    match pc
    case Processing(id, p, h, _, _, _) => if p.Stopped(h) then None else Some((id, p.Next(h)))
    case Initialising(_, _, _, id, p, h) => if p.Stopped(h) then None else Some((id, p.Next(h)))
    case Executing(_, c, past) =>
      if !c.Stopped(past) && c.Next(past).EventOps? && Accepted(m, c.Next(past).id, c.Next(past).op)
      then Some((c.Next(past).id, c.Next(past).op)) else None
    case _ => None
  }

  // ---------- steps ----------

  datatype Label<!T, !W, !V> =
    | Push(tid: nat, code: W -> Closure<T, W, V>, blocking: bool)
    | Write(tid: nat)
    | Kick(tid: nat)
    | Collect(tid: nat)
    | Call(code: W -> Closure<T, W, V>)
    | Wait(batch: seq<EpollEvent>)
    | Tick
    | Env(e: Effect<W>)

  /** The kernel reports the channel only while its counter is positive. */
  predicate Reportable<T, W, V>(s: Sys<T, W, V>, batch: seq<EpollEvent>) {
    && Polled(s.m.ep, s.m.chan, batch)
    && (s.ch.counter == 0 ==> forall j :: 0 <= j < |batch| ==> Fd(batch[j]) != s.m.chan)
  }

  predicate Enabled<T, W, V>(s: Sys<T, W, V>, l: Label<T, W, V>) {
    match l
    case Push(tid, _, _) => SenderOf(s.ch, tid).Ready? && (tid == MANAGER ==> InUserCode(s.pc))
    case Kick(tid) => SenderOf(s.ch, tid).Ready? && (tid == MANAGER ==> InUserCode(s.pc))
    case Write(tid) => SenderOf(s.ch, tid).Sending?
    case Collect(tid) => SenderOf(s.ch, tid).Waiting? && SenderOf(s.ch, tid).reply in s.ch.replies
    case Call(_) => s.pc.Idle? && SenderOf(s.ch, MANAGER).Ready?
    case Wait(batch) => s.pc.Idle? && SenderOf(s.ch, MANAGER).Ready? && Reportable(s, batch)
    case Tick =>
      && !s.pc.Idle? && !s.pc.Crashed? && SenderOf(s.ch, MANAGER).Ready?
      && (NextOp(s.m, s.pc).Some? ==> Polite(s.m.chan, NextOp(s.m, s.pc).value.1))
    case Env(e) => e.Closed? ==> e.fd != s.m.chan
  }

  /** `msg_sender.send(msg)`, the first half of `call_blocking` and `fire`. */
  function PushMessage<T, W, V>(
      ch: Channel<T, W, V>, tid: nat, code: W -> Closure<T, W, V>, blocking: bool): Channel<T, W, V> {
    var call := if blocking then Some(ch.nextCall) else None;
    var msg := Message(code, call);
    ch.(queue := ch.queue + [msg], pushed := ch.pushed + [msg], nextCall := ch.nextCall + 1,
        senders := ch.senders[tid := Sending(call, |ch.pushed|)])
  }

  /** `event_fd.write(1)`. */
  function Bump(counter: nat): (nat, bool) {
    if counter < EVENTFD_MAX then (counter + 1, true) else (counter, false)
  }

  /** The second half: `call_blocking` goes on to wait, unless the write failed. */
  function WriteEvent<T, W, V>(ch: Channel<T, W, V>, tid: nat): Channel<T, W, V>
    requires SenderOf(ch, tid).Sending?
  {
    var (counter, ok) := Bump(ch.counter);
    var s := SenderOf(ch, tid);
    var after := if ok && s.call.Some? then Waiting(s.call.value, s.at) else Ready;
    ch.(counter := counter, senders := ch.senders[tid := after])
  }

  function ApplyEffect<T, W>(m: Manager<T, W>, e: Effect<W>): Manager<T, W> {
    match e
    case Opened(fd) => m.(ep := Apply(m.ep, 0, Open(fd)).0)
    case Closed(fd) => m.(ep := Apply(m.ep, 0, Close(fd)).0)
    case Shared(w) => m.(world := w)
  }

  function Interrupted<T, W, V>(item: Item<T, W, V>, after: nat, e: Effect<W>): Item<T, W, V> {
    match item
    case Entry(i, trail) => Entry(i, trail + [During(after, e)])
    case Executed(code, remote, trail) => Executed(code, remote, trail + [During(after, e)])
    case _ => item
  }

  /** An outside effect is noted in the item under way, if there is one. */
  function Witness<T, W, V>(past: Past<T, W, V>, inItem: bool, e: Effect<W>): Past<T, W, V> {
    var n := |past.log|;
    if inItem && n > 0 then past.(log := past.log[..n - 1] + [Interrupted(past.log[n - 1], past.since, e)], since := 0)
    else past.(log := past.log + [Outside(e)])
  }

  function Disturb<T, W, V>(s: Sys<T, W, V>, e: Effect<W>): Sys<T, W, V> {
    s.(m := ApplyEffect(s.m, e), past := Witness(s.past, InItem(s.pc), e))
  }

  /** `dispatch_events` for one entry, and `dispatch_endpoint_event` after the last. */
  function TickDispatching<T, W, V>(beh: Behaviour<T, W>, s: Sys<T, W, V>): Sys<T, W, V>
    requires s.pc.Dispatching?
  {
    var Dispatching(i, n, endpoint) := s.pc;
    if i >= n then
      match endpoint
      case None => s.(pc := Idle)
      case Some(ev) => s.(pc := if ev.events != IN then Crashed(BadChannelEvent, false) else Reading)
    else if i >= |s.m.ep.ready| then s.(pc := Crashed(IndexOutOfBounds, false))
    else
      var noted := s.past.(log := s.past.log + [Entry(i, [])]);
      match Look(s.m, i)
      case Skip => s.(pc := Dispatching(i + 1, n, endpoint), past := noted)
      case ToChannel => s.(pc := Dispatching(i + 1, n, Some(s.m.ep.ready[i])), past := noted)
      case Broken(f) => s.(pc := Crashed(f, false))
      case ToProcess(id) =>
        var p := beh.process(s.m.subscribers[id], s.m.world, s.m.ep.ready[i]);
        s.(pc := Processing(id, p, [], i, n, endpoint), past := noted)
  }

  function Perform<T, W, V>(s: Sys<T, W, V>, id: U64, op: Op): (Sys<T, W, V>, Result) {
    var (w, res) := Apply(s.m.ep, id, op);
    (s.(m := s.m.(ep := w), past := s.past.(done := s.past.done + [Done(id, op, res)])), res)
  }

  function TickProcessing<T, W, V>(s: Sys<T, W, V>): Sys<T, W, V>
    requires s.pc.Processing?
  {
    var Processing(id, p, h, i, n, endpoint) := s.pc;
    if p.Stopped(h) then
      var (t, w) := p.outcome(h);
      s.(m := s.m.(subscribers := s.m.subscribers[id := t], world := w), pc := Dispatching(i + 1, n, endpoint))
    else
      var (s1, res) := Perform(s, id, p.Next(h));
      s1.(pc := Processing(id, p, h + [res], i, n, endpoint))
  }

  /** `try_recv`. */
  function TickReceiving<T, W, V>(s: Sys<T, W, V>): Sys<T, W, V>
    requires s.pc.Receiving?
  {
    if s.ch.queue == [] then s.(pc := Idle)
    else
      var msg := s.ch.queue[0];
      s.(pc := Executing(Remote(msg), msg.code(s.m.world), []),
         ch := s.ch.(queue := s.ch.queue[1..]),
         past := s.past.(log := s.past.log + [Executed(msg.code, true, [])], ran := s.past.ran + [|s.past.log|]))
  }

  function AfterClosure<T, W, V>(who: Who<T, W, V>, v: V): Pc<T, W, V> {
    match who
    case Owner => Idle
    case Remote(msg) => if msg.call.Some? then Replying(msg.call.value, v) else Receiving
  }

  function TickExecuting<T, W, V>(beh: Behaviour<T, W>, s: Sys<T, W, V>): Sys<T, W, V>
    requires s.pc.Executing?
  {
    var Executing(who, c, past) := s.pc;
    if c.Stopped(past) then
      var (w, v) := c.outcome(past);
      s.(m := s.m.(world := w), pc := AfterClosure(who, v))
    else if c.Next(past).AddSubscriber? then
      var AddSubscriber(t, w) := c.Next(past);
      if s.m.nextId == U64_MAX then s.(pc := Crashed(IdOverflow, who.Remote?))
      else s.(m := Enrol(s.m, t), pc := Initialising(who, c, past, s.m.nextId, beh.init(t, w), []))
    else if NextOp(s.m, s.pc).Some? then
      var (s1, res) := Perform(s, c.Next(past).id, c.Next(past).op);
      s1.(pc := Executing(who, c, past + [Did(res)]))
    else
      var (m1, reply) := Answer(beh, s.m, c.Next(past));
      if reply.None? then s.(pc := Crashed(IdOverflow, who.Remote?))
      else s.(m := m1, pc := Executing(who, c, past + [reply.value]))
  }

  function TickInitialising<T, W, V>(s: Sys<T, W, V>): Sys<T, W, V>
    requires s.pc.Initialising?
  {
    var Initialising(who, c, past, id, p, h) := s.pc;
    if p.Stopped(h) then
      var (t, w) := p.outcome(h);
      s.(m := s.m.(subscribers := s.m.subscribers[id := t]), pc := Executing(who, c, past + [Added(id, w)]))
    else
      var (s1, res) := Perform(s, id, p.Next(h));
      s1.(pc := Initialising(who, c, past, id, p, h + [res]))
  }

  function TickManager<T, W, V>(beh: Behaviour<T, W>, s: Sys<T, W, V>): Sys<T, W, V>
    requires Enabled(s, Tick)
  {
    match s.pc
    case Dispatching(_, _, _) => TickDispatching(beh, s)
    case Processing(_, _, _, _, _, _) => TickProcessing(s)
    case Reading => s.(ch := s.ch.(counter := 0), pc := Receiving)
    case Receiving => TickReceiving(s)
    case Executing(_, _, _) => TickExecuting(beh, s)
    case Initialising(_, _, _, _, _, _) => TickInitialising(s)
    case Replying(call, v) => s.(ch := s.ch.(replies := s.ch.replies[call := v]), pc := Receiving)
    case _ => s
  }

  function Next<T, W, V>(beh: Behaviour<T, W>, s: Sys<T, W, V>, l: Label<T, W, V>): Sys<T, W, V>
    requires Enabled(s, l)
  {
    match l
    case Push(tid, code, blocking) => s.(ch := PushMessage(s.ch, tid, code, blocking))
    case Write(tid) => s.(ch := WriteEvent(s.ch, tid))
    case Kick(tid) => s.(ch := s.ch.(counter := Bump(s.ch.counter).0))
    case Collect(tid) => s.(ch := s.ch.(senders := s.ch.senders[tid := Ready]))
    case Call(code) =>
      s.(pc := Executing(Owner, code(s.m.world), []),
         past := s.past.(log := s.past.log + [Executed(code, false, [])], since := 0))
    case Wait(batch) =>
      s.(m := Fill(s.m, batch), pc := Dispatching(0, |batch|, None),
         past := s.past.(log := s.past.log + [Poll(batch)], batch := batch, before := |s.past.done|,
                         owners := s.m.ep.dispatch, table := s.m.subscribers.Keys))
    case Tick =>
      var s1 := TickManager(beh, s);
      s1.(past := s1.past.(since := if InItem(s.pc) then s.past.since + 1 else 0))
    case Env(e) => Disturb(s, e)
  }

  // ---------- runs ----------

  ghost predicate Valid<T, W, V>(beh: Behaviour<T, W>, s: Sys<T, W, V>, ls: seq<Label<T, W, V>>)
    decreases |ls|
  {
    ls == [] || (Enabled(s, ls[0]) && Valid(beh, Next(beh, s, ls[0]), ls[1..]))
  }

  ghost function After<T, W, V>(beh: Behaviour<T, W>, s: Sys<T, W, V>, ls: seq<Label<T, W, V>>): Sys<T, W, V>
    requires Valid(beh, s, ls)
    decreases |ls|
  {
    if ls == [] then s else After(beh, Next(beh, s, ls[0]), ls[1..])
  }

  /** What `new_with_capacity` builds: nothing registered but the channel. */
  function Fresh<T, W>(capacity: nat, chan: RawFd, open: set<RawFd>, w: W): Manager<T, W>
    requires chan >= 0
  {
    Manager(map[], 1, Wrapper(Kernel(map[chan := EpollEvent(IN, chan)], open), map[], map[],
                              seq(capacity, j => DEFAULT_EVENT)), chan, w)
  }

  function Start<T, W, V>(capacity: nat, chan: RawFd, open: set<RawFd>, w: W): Sys<T, W, V>
    requires chan >= 0
  {
    Sys(Fresh(capacity, chan, open, w), Idle, Channel([], 0, map[], map[], 0, []),
        Past([], [], 0, [], [], 0, map[], {}))
  }

  /** The channel's descriptor is open, like any the process holds, and non-negative. */
  predicate Descriptors(chan: RawFd, open: set<RawFd>) {
    chan in open && forall fd :: fd in open ==> fd >= 0
  }
}
