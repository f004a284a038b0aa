// What holds in every reachable state of the manager, whatever user code, other threads
// and the kernel do: no `unreachable!`, failed unwrap or index out of bounds; events go to
// the right subscriber with the right payload; ids stay fresh.

module ProtocolSafety {
  import opened EventData
  import opened Index
  import opened Dispatch
  import opened Closures
  import opened Protocol

  // ---------- the invariant ----------

  function RemovedSincePoll<T, W, V>(p: Past<T, W, V>): set<RawFd>
    requires p.before <= |p.done|
  {
    RemovedIn(p.done[p.before..])
  }

  /** Entries from `i` on are as polled, but for descriptors removed since. */
  ghost predicate BatchSound<T, W, V>(m: Manager<T, W>, p: Past<T, W, V>, i: nat, n: nat) {
    && n == |p.batch| && i <= n
    && p.before <= |p.done|
    && Pending(m.ep, m.chan, p.batch, i, p.owners, RemovedSincePoll(p))
    && m.subscribers.Keys == p.table
  }

  ghost predicate PcSound<T, W, V>(m: Manager<T, W>, pc: Pc<T, W, V>, p: Past<T, W, V>) {
    match pc
    case Dispatching(i, n, endpoint) => BatchSound(m, p, i, n) && (endpoint.Some? ==> endpoint.value.events == IN)
    case Processing(id, _, _, i, n, endpoint) =>
      id in m.subscribers && BatchSound(m, p, i + 1, n) && (endpoint.Some? ==> endpoint.value.events == IN)
    case Initialising(_, _, _, id, _, _) => id in m.subscribers
    case Crashed(f, _) => f == IdOverflow && m.nextId == U64_MAX
    case _ => true
  }

  /** In the polled batch only the channel can have the channel's descriptor. */
  ghost predicate ChannelOnlyIn<T, W, V>(m: Manager<T, W>, pc: Pc<T, W, V>, p: Past<T, W, V>) {
    InBatch(pc) ==> forall j :: 0 <= j < |p.batch| && Fd(p.batch[j]) == m.chan ==> p.batch[j].events == IN
  }

  ghost predicate Sound<T, W, V>(s: Sys<T, W, V>) {
    Inv(s.m) && PcSound(s.m, s.pc, s.past) && ChannelOnlyIn(s.m, s.pc, s.past)
  }

  lemma StartIsSound<T(!new), W(!new), V(!new)>(capacity: nat, chan: RawFd, open: set<RawFd>, w: W)
    requires Descriptors(chan, open)
    ensures Sound(Start<T, W, V>(capacity, chan, open, w))
  {
  }

  // ---------- one step ----------

  lemma PerformIsSound<T(!new), W(!new), V(!new)>(s: Sys<T, W, V>, id: U64, op: Op)
    requires Inv(s.m) && Polite(s.m.chan, op) && (op.Open? || op.Close? || id in s.m.subscribers)
    ensures Inv(Protocol.Perform(s, id, op).0.m)
  {
    ApplyKeepsIndexed(s.m.ep, s.m.chan, id, op);
  }

  lemma PerformKeepsBatch<T(!new), W(!new), V(!new)>(s: Sys<T, W, V>, id: U64, op: Op, i: nat, n: nat)
    requires BatchSound(s.m, s.past, i, n) && Polite(s.m.chan, op)
    ensures var s1 := Protocol.Perform(s, id, op).0; BatchSound(s1.m, s1.past, i, n)
  {
    var d := Done(id, op, Apply(s.m.ep, id, op).1);
    ApplyKeepsPending(s.m.ep, s.m.chan, id, op, s.past.batch, i, s.past.owners, RemovedSincePoll(s.past));
    assert (s.past.done + [d])[s.past.before..] == s.past.done[s.past.before..] + [d];
    RemovedInConcat(s.past.done[s.past.before..], [d]);
  }

  /** Entry `i` is treated as the polled batch and the removals since demand. */
  ghost predicate LooksAsPolled<T, W, V>(m: Manager<T, W>, p: Past<T, W, V>, i: nat)
    requires i < |p.batch| <= |m.ep.ready| && p.before <= |p.done|
  {
    var ev := p.batch[i];
    if Fd(ev) == m.chan then Look(m, i) == ToChannel && m.ep.ready[i] == ev
    else if Fd(ev) in RemovedSincePoll(p) then Look(m, i) == Skip
    else Fd(ev) in p.owners && Look(m, i) == ToProcess(p.owners[Fd(ev)]) && m.ep.ready[i] == ev
  }

  lemma SoundBatchLooksAsPolled<T(!new), W(!new), V(!new)>(m: Manager<T, W>, p: Past<T, W, V>, i: nat, n: nat)
    requires Inv(m) && BatchSound(m, p, i, n) && i < n
    ensures LooksAsPolled(m, p, i)
    ensures BatchSound(m, p, i + 1, n)
  {
  }

  lemma DispatchingIsSound<T(!new), W(!new), V(!new)>(beh: Behaviour<T, W>, s: Sys<T, W, V>)
    requires Sound(s) && s.pc.Dispatching?
    ensures Sound(TickDispatching(beh, s))
  {
    if s.pc.i < s.pc.n {
      SoundBatchLooksAsPolled(s.m, s.past, s.pc.i, s.pc.n);
    }
  }

  lemma ProcessingIsSound<T(!new), W(!new), V(!new)>(beh: Behaviour<T, W>, s: Sys<T, W, V>)
    requires Sound(s) && s.pc.Processing? && Enabled(s, Tick)
    ensures Sound(TickProcessing(s))
  {
    var Processing(id, p, h, i, n, endpoint) := s.pc;
    if !p.Stopped(h) {
      PerformIsSound(s, id, p.Next(h));
      PerformKeepsBatch(s, id, p.Next(h), i + 1, n);
    }
  }

  lemma ExecutingIsSound<T(!new), W(!new), V(!new)>(beh: Behaviour<T, W>, s: Sys<T, W, V>)
    requires Sound(s) && s.pc.Executing? && Enabled(s, Tick)
    ensures Sound(TickExecuting(beh, s))
  {
    var Executing(who, c, past) := s.pc;
    if !c.Stopped(past) {
      var req := c.Next(past);
      if NextOp(s.m, s.pc).Some? {
        PerformIsSound(s, req.id, req.op);
      } else if !req.AddSubscriber? && !req.EventOps? {
        RequestKeepsInv(beh, s.m, req);
      }
    }
  }

  lemma InitialisingIsSound<T(!new), W(!new), V(!new)>(s: Sys<T, W, V>)
    requires Sound(s) && s.pc.Initialising? && Enabled(s, Tick)
    ensures Sound(TickInitialising(s))
  {
    var Initialising(who, c, past, id, p, h) := s.pc;
    if !p.Stopped(h) {
      PerformIsSound(s, id, p.Next(h));
    }
  }

  lemma EffectIsSound<T(!new), W(!new), V(!new)>(s: Sys<T, W, V>, e: Effect<W>)
    requires Sound(s) && Enabled(s, Env(e))
    ensures Sound(s.(m := ApplyEffect(s.m, e)))
  {
    match e {
      case Opened(fd) => ApplyKeepsIndexed(s.m.ep, s.m.chan, 0, Open(fd));
      case Closed(fd) => ApplyKeepsIndexed(s.m.ep, s.m.chan, 0, Close(fd));
      case Shared(w) =>
    }
  }

  lemma TickIsSound<T(!new), W(!new), V(!new)>(beh: Behaviour<T, W>, s: Sys<T, W, V>)
    requires Sound(s) && Enabled(s, Tick)
    ensures Sound(TickManager(beh, s))
  {
    match s.pc {
      case Dispatching(_, _, _) => DispatchingIsSound(beh, s);
      case Processing(_, _, _, _, _, _) => ProcessingIsSound(beh, s);
      case Executing(_, _, _) => ExecutingIsSound(beh, s);
      case Initialising(_, _, _, _, _, _) => InitialisingIsSound(s);
      case _ =>
    }
  }

  /** Every step of the manager, of another thread or of the world outside, whatever code is
      under way, keeps the invariant. */
  lemma StepIsSound<T(!new), W(!new), V(!new)>(beh: Behaviour<T, W>, s: Sys<T, W, V>, l: Label<T, W, V>)
    requires Sound(s) && Enabled(s, l)
    ensures Sound(Next(beh, s, l))
  {
    match l {
      case Tick => TickIsSound(beh, s);
      case Wait(batch) =>
        FilledIsPending(s.m, batch);
        assert s.past.done[|s.past.done|..] == [];
        assert RemovedIn([]) == {};
      case Env(e) => EffectIsSound(s, e);
      case _ =>
    }
  }

  // ---------- every run ----------

  lemma {:induction false} RunIsSound<T(!new), W(!new), V(!new)>(
      beh: Behaviour<T, W>, s: Sys<T, W, V>, ls: seq<Label<T, W, V>>)
    requires Sound(s) && Valid(beh, s, ls)
    ensures Sound(After(beh, s, ls))
    decreases |ls|
  {
    if ls != [] {
      StepIsSound(beh, s, ls[0]);
      RunIsSound(beh, Next(beh, s, ls[0]), ls[1..]);
    }
  }

  /** From construction, under any polls, callbacks (which may remove other subscribers'
      descriptors), closures, closed descriptors and interleaving of threads, the loop never
      reaches an `unreachable!`, a failed unwrap or an index out of bounds. The only panic
      left is the overflow of `next_id`. */
  lemma NoPanic<T(!new), W(!new), V(!new)>(
      beh: Behaviour<T, W>, capacity: nat, chan: RawFd, open: set<RawFd>, w: W, ls: seq<Label<T, W, V>>)
    requires Descriptors(chan, open) && Valid(beh, Start(capacity, chan, open, w), ls)
    ensures
      var s := After(beh, Start(capacity, chan, open, w), ls);
      s.pc.Crashed? ==> s.pc.fault == IdOverflow && s.m.nextId == U64_MAX
  {
    StartIsSound<T, W, V>(capacity, chan, open, w);
    RunIsSound(beh, Start(capacity, chan, open, w), ls);
  }

  /** Whenever the loop turns to entry `i`, the buffer decides as the polled batch and the
      operations made since would: the channel is set aside; a descriptor removed since the
      poll is skipped, even if registered again; any other event is unchanged and goes to
      its owner at the poll. Meanwhile the subscriber table is the one of the poll. */
  lemma EntryIsHandledAsPolled<T(!new), W(!new), V(!new)>(
      beh: Behaviour<T, W>, s0: Sys<T, W, V>, ls: seq<Label<T, W, V>>)
    requires Sound(s0) && Valid(beh, s0, ls)
    ensures
      var s := After(beh, s0, ls);
      && (InBatch(s.pc) ==> s.m.subscribers.Keys == s.past.table)
      && (s.pc.Dispatching? && s.pc.i < s.pc.n ==>
            && s.pc.n == |s.past.batch| <= |s.m.ep.ready| && s.past.before <= |s.past.done|
            && LooksAsPolled(s.m, s.past, s.pc.i))
  {
    RunIsSound(beh, s0, ls);
    var s := After(beh, s0, ls);
    if s.pc.Dispatching? && s.pc.i < s.pc.n {
      SoundBatchLooksAsPolled(s.m, s.past, s.pc.i, s.pc.n);
    }
  }

  /** The manager is about to remove a registered subscriber. */
  predicate Removes<T, W, V>(s: Sys<T, W, V>) {
    && s.pc.Executing? && !s.pc.c.Stopped(s.pc.past) && s.pc.c.Next(s.pc.past).RemoveSubscriber?
    && s.pc.c.Next(s.pc.past).id in s.m.subscribers
  }

  /** All that a step can do to the index. */
  function IndexAfter<T, W, V>(s: Sys<T, W, V>, l: Label<T, W, V>): Wrapper
    requires Enabled(s, l)
  {
    match l
    case Wait(batch) => Fill(s.m, batch).ep
    case Env(e) => ApplyEffect(s.m, e).ep
    case Tick =>
      if NextOp(s.m, s.pc).Some? then Apply(s.m.ep, NextOp(s.m, s.pc).value.0, NextOp(s.m, s.pc).value.1).0
      else if Removes(s) then Index.RemoveSubscriber(s.m.ep, s.pc.c.Next(s.pc.past).id)
      else s.m.ep
    case _ => s.m.ep
  }

  lemma StepChangesIndex<T(!new), W(!new), V(!new)>(beh: Behaviour<T, W>, s: Sys<T, W, V>, l: Label<T, W, V>)
    requires Enabled(s, l)
    ensures Next(beh, s, l).m.ep == IndexAfter(s, l) && Next(beh, s, l).m.chan == s.m.chan
  {
  }

  lemma RemovalKeepsLength(w: Wrapper, id: U64)
    ensures |Index.RemoveSubscriber(w, id).ready| == |w.ready|
  {
    RemoveAllIs(w.(watch := w.watch - {id}), WatchListOf(w, id));
  }

  /** The buffer of ready events never changes its length. */
  lemma {:induction false} BufferKeepsItsLength<T(!new), W(!new), V(!new)>(
      beh: Behaviour<T, W>, s: Sys<T, W, V>, ls: seq<Label<T, W, V>>)
    requires Valid(beh, s, ls)
    ensures |After(beh, s, ls).m.ep.ready| == |s.m.ep.ready|
    decreases |ls|
  {
    if ls != [] {
      StepChangesIndex(beh, s, ls[0]);
      if Removes(s) {
        RemovalKeepsLength(s.m.ep, s.pc.c.Next(s.pc.past).id);
      }
      BufferKeepsItsLength(beh, Next(beh, s, ls[0]), ls[1..]);
    }
  }

  /** A new manager has a buffer of the capacity asked for, all default; it watches the channel and
      nothing else, and has no subscribers. Nothing is queued and the loop is idle. */
  lemma StartIs<T(!new), W(!new), V(!new)>(capacity: nat, chan: RawFd, open: set<RawFd>, w: W)
    requires chan >= 0
    ensures
      var s := Start<T, W, V>(capacity, chan, open, w);
      && |s.m.ep.ready| == capacity && (forall j :: 0 <= j < capacity ==> s.m.ep.ready[j] == DEFAULT_EVENT)
      && s.m.ep.kernel == Kernel(map[chan := EpollEvent(IN, chan)], open)
      && s.m.ep.dispatch == map[] && s.m.ep.watch == map[] && s.m.subscribers == map[]
      && s.m.nextId == 1 && s.m.chan == chan && s.m.world == w
      && s.pc == Idle && s.ch.queue == [] && s.ch.pushed == [] && s.ch.counter == 0
      && s.ch.replies == map[] && forall tid :: SenderOf(s.ch, tid).Ready?
  {
  }

  /** In every run the buffer has the capacity that the manager was made with, so a poll can
      deliver any choice of that many watched descriptors, whatever was delivered before. */
  lemma PollAcceptsUpToCapacity<T(!new), W(!new), V(!new)>(
      beh: Behaviour<T, W>, capacity: nat, chan: RawFd, open: set<RawFd>, w: W, ls: seq<Label<T, W, V>>,
      batch: seq<EpollEvent>)
    requires Descriptors(chan, open) && Valid(beh, Start(capacity, chan, open, w), ls)
    requires
      var s := After(beh, Start(capacity, chan, open, w), ls);
      && s.pc.Idle? && SenderOf(s.ch, MANAGER).Ready?
      && |batch| <= capacity
      && (forall i, j :: 0 <= i < j < |batch| ==> Fd(batch[i]) != Fd(batch[j]))
      && (forall i :: 0 <= i < |batch| ==>
            && batch[i].events != 0 && Fd(batch[i]) in s.m.ep.kernel.interest
            && batch[i].data == s.m.ep.kernel.interest[Fd(batch[i])].data
            && (Fd(batch[i]) == s.m.chan ==> batch[i].events == IN && s.ch.counter > 0))
    ensures
      var s := After(beh, Start(capacity, chan, open, w), ls);
      && |s.m.ep.ready| == capacity
      && Enabled(s, Wait(batch))
      && var s1 := Next(beh, s, Wait(batch));
         && s1.pc == Dispatching(0, |batch|, None) && |s1.m.ep.ready| == capacity
         && s1.m.ep.ready[..|batch|] == batch && s1.m.ep.ready[|batch|..] == s.m.ep.ready[|batch|..]
         && s1.m == s.m.(ep := s.m.ep.(ready := s1.m.ep.ready))
  {
    BufferKeepsItsLength(beh, Start(capacity, chan, open, w), ls);
  }

  // ---------- the drain ----------

  /** Whether the channel is among the first `i` events of the batch. */
  ghost predicate ChannelBefore<T, W, V>(s: Sys<T, W, V>, i: nat) {
    exists k :: 0 <= k < i && k < |s.past.batch| && Fd(s.past.batch[k]) == s.m.chan
  }

  ghost predicate Remembers<T, W, V>(s: Sys<T, W, V>) {
    match s.pc
    case Dispatching(i, _, endpoint) => endpoint.Some? <==> ChannelBefore(s, i)
    case Processing(_, _, _, i, _, endpoint) => endpoint.Some? <==> ChannelBefore(s, i + 1)
    case _ => true
  }

  lemma ChannelBeforeNext<T(!new), W(!new), V(!new)>(s: Sys<T, W, V>, i: nat)
    requires i < |s.past.batch|
    ensures ChannelBefore(s, i + 1) <==> ChannelBefore(s, i) || Fd(s.past.batch[i]) == s.m.chan
  {
    if k :| 0 <= k < i + 1 && k < |s.past.batch| && Fd(s.past.batch[k]) == s.m.chan {
      assert k == i || ChannelBefore(s, i);
    }
  }

  lemma DispatchingRemembers<T(!new), W(!new), V(!new)>(beh: Behaviour<T, W>, s: Sys<T, W, V>)
    requires Sound(s) && Remembers(s) && s.pc.Dispatching?
    ensures Remembers(TickDispatching(beh, s))
  {
    var s1 := TickDispatching(beh, s);
    if s.pc.i < s.pc.n {
      SoundBatchLooksAsPolled(s.m, s.past, s.pc.i, s.pc.n);
      ChannelBeforeNext(s, s.pc.i);
      assert ChannelBefore(s1, s.pc.i + 1) <==> ChannelBefore(s, s.pc.i + 1);
    }
  }

  lemma SamePlaceRemembers<T(!new), W(!new), V(!new)>(s: Sys<T, W, V>, s1: Sys<T, W, V>)
    requires Remembers(s) && s1.pc == s.pc && s1.past.batch == s.past.batch && s1.m.chan == s.m.chan
    ensures Remembers(s1)
  {
    assert forall i :: ChannelBefore(s1, i) <==> ChannelBefore(s, i);
  }

  lemma ProcessingRemembers<T(!new), W(!new), V(!new)>(s: Sys<T, W, V>)
    requires Remembers(s) && s.pc.Processing?
    ensures Remembers(TickProcessing(s))
  {
    assert ChannelBefore(TickProcessing(s), s.pc.i + 1) <==> ChannelBefore(s, s.pc.i + 1);
  }

  lemma TickRemembers<T(!new), W(!new), V(!new)>(beh: Behaviour<T, W>, s: Sys<T, W, V>)
    requires Sound(s) && Remembers(s) && Enabled(s, Tick)
    ensures Remembers(TickManager(beh, s))
  {
    if s.pc.Dispatching? {
      DispatchingRemembers(beh, s);
    } else if s.pc.Processing? {
      ProcessingRemembers(s);
    }
  }

  lemma StepRemembers<T(!new), W(!new), V(!new)>(beh: Behaviour<T, W>, s: Sys<T, W, V>, l: Label<T, W, V>)
    requires Sound(s) && Remembers(s) && Enabled(s, l)
    ensures Remembers(Next(beh, s, l))
  {
    match l {
      case Tick =>
        TickRemembers(beh, s);
        SamePlaceRemembers(TickManager(beh, s), Next(beh, s, l));
      case Wait(_) =>
      case Call(_) =>
      case _ => SamePlaceRemembers(s, Next(beh, s, l));
    }
  }

  lemma {:induction false} RunRemembers<T(!new), W(!new), V(!new)>(
      beh: Behaviour<T, W>, s: Sys<T, W, V>, ls: seq<Label<T, W, V>>)
    requires Sound(s) && Remembers(s) && Valid(beh, s, ls)
    ensures Remembers(After(beh, s, ls))
    decreases |ls|
  {
    if ls != [] {
      StepIsSound(beh, s, ls[0]);
      StepRemembers(beh, s, ls[0]);
      RunRemembers(beh, Next(beh, s, ls[0]), ls[1..]);
    }
  }

  /** In every run, when the last entry of a batch has been handled the manager goes on to read the
      eventfd and drain the queue if the channel was polled, and otherwise is done. */
  lemma DrainsIffReported<T(!new), W(!new), V(!new)>(
      beh: Behaviour<T, W>, capacity: nat, chan: RawFd, open: set<RawFd>, w: W, ls: seq<Label<T, W, V>>)
    requires Descriptors(chan, open) && Valid(beh, Start(capacity, chan, open, w), ls)
    requires
      var s := After(beh, Start(capacity, chan, open, w), ls);
      s.pc.Dispatching? && s.pc.i == s.pc.n && Enabled(s, Tick)
    ensures
      var s := After(beh, Start(capacity, chan, open, w), ls);
      Next(beh, s, Tick).pc ==
      if exists k :: 0 <= k < |s.past.batch| && Fd(s.past.batch[k]) == s.m.chan then Reading else Idle
  {
    StartIsSound<T, W, V>(capacity, chan, open, w);
    RunIsSound(beh, Start(capacity, chan, open, w), ls);
    RunRemembers(beh, Start(capacity, chan, open, w), ls);
  }

  // ---------- payloads ----------

  /** The last successful `add` or `modify` of `fd` among the operations made. */
  function LastWrite(done: seq<Done>, fd: RawFd): Option<EpollEvent> {
    if done == [] then None
    else
      var d := done[|done| - 1];
      if d.res.Ok? && (d.op.OpAdd? || d.op.OpModify?) && Fd(d.op.ev) == fd then Some(d.op.ev)
      else LastWrite(done[..|done| - 1], fd)
  }

  ghost predicate Recorded<T, W, V>(s: Sys<T, W, V>) {
    && (forall fd :: fd in s.m.ep.kernel.interest && fd != s.m.chan ==>
          LastWrite(s.past.done, fd) == Some(s.m.ep.kernel.interest[fd]))
    && s.past.before <= |s.past.done|
    && (InBatch(s.pc) ==> forall j :: 0 <= j < |s.past.batch| && Fd(s.past.batch[j]) != s.m.chan ==>
          && LastWrite(s.past.done[..s.past.before], Fd(s.past.batch[j])).Some?
          && LastWrite(s.past.done[..s.past.before], Fd(s.past.batch[j])).value.data == s.past.batch[j].data)
  }

  lemma PerformIsRecorded<T(!new), W(!new), V(!new)>(s: Sys<T, W, V>, id: U64, op: Op)
    requires Recorded(s)
    ensures Recorded(Protocol.Perform(s, id, op).0)
  {
    var d := Done(id, op, Apply(s.m.ep, id, op).1);
    assert (s.past.done + [d])[..|s.past.done|] == s.past.done;
    assert (s.past.done + [d])[..s.past.before] == s.past.done[..s.past.before];
  }

  lemma RemovalOnlyDrops(w: Wrapper, id: U64)
    ensures
      var w' := Index.RemoveSubscriber(w, id);
      w'.kernel.interest.Keys <= w.kernel.interest.Keys
      && forall fd :: fd in w'.kernel.interest ==> w'.kernel.interest[fd] == w.kernel.interest[fd]
  {
    RemoveAllIs(w.(watch := w.watch - {id}), WatchListOf(w, id));
  }

  lemma TickIsRecorded<T(!new), W(!new), V(!new)>(beh: Behaviour<T, W>, s: Sys<T, W, V>)
    requires Recorded(s) && Enabled(s, Tick)
    ensures Recorded(Next(beh, s, Tick))
  {
    if NextOp(s.m, s.pc).Some? {
      PerformIsRecorded(s, NextOp(s.m, s.pc).value.0, NextOp(s.m, s.pc).value.1);
    } else {
      StepChangesIndex(beh, s, Tick);
      if Removes(s) {
        RemovalOnlyDrops(s.m.ep, s.pc.c.Next(s.pc.past).id);
      }
    }
  }

  lemma StepIsRecorded<T(!new), W(!new), V(!new)>(beh: Behaviour<T, W>, s: Sys<T, W, V>, l: Label<T, W, V>)
    requires Recorded(s) && Enabled(s, l)
    ensures Recorded(Next(beh, s, l))
  {
    match l {
      case Tick => TickIsRecorded(beh, s);
      case Wait(batch) => assert s.past.done[..|s.past.done|] == s.past.done;
      case _ =>
    }
  }

  lemma {:induction false} RunIsRecorded<T(!new), W(!new), V(!new)>(
      beh: Behaviour<T, W>, s: Sys<T, W, V>, ls: seq<Label<T, W, V>>)
    requires Recorded(s) && Valid(beh, s, ls)
    ensures Recorded(After(beh, s, ls))
    decreases |ls|
  {
    if ls != [] {
      StepIsRecorded(beh, s, ls[0]);
      RunIsRecorded(beh, Next(beh, s, ls[0]), ls[1..]);
    }
  }

  /** The event given to `process` carries the descriptor and datum of the last successful
      `add` or `modify` of that descriptor before the poll; a `modify` made since by an
      earlier callback of the same batch does not show. */
  lemma PayloadIsLastWrite<T(!new), W(!new), V(!new)>(
      beh: Behaviour<T, W>, capacity: nat, chan: RawFd, open: set<RawFd>, w: W, ls: seq<Label<T, W, V>>)
    requires Descriptors(chan, open) && Valid(beh, Start(capacity, chan, open, w), ls)
    ensures
      var s := After(beh, Start(capacity, chan, open, w), ls);
      s.pc.Dispatching? && s.pc.i < s.pc.n && s.pc.i < |s.m.ep.ready| && Look(s.m, s.pc.i).ToProcess? ==>
        && s.past.before <= |s.past.done|
        && var ev := s.m.ep.ready[s.pc.i];
           var written := LastWrite(s.past.done[..s.past.before], Fd(ev));
           written.Some? && Fd(written.value) == Fd(ev) && Data(written.value) == Data(ev)
  {
    var s0 := Start(capacity, chan, open, w);
    StartIsSound<T, W, V>(capacity, chan, open, w);
    EntryIsHandledAsPolled(beh, s0, ls);
    RunIsRecorded(beh, s0, ls);
  }

  // ---------- ids ----------

  lemma StepKeepsIdsSpent<T(!new), W(!new), V(!new)>(beh: Behaviour<T, W>, s: Sys<T, W, V>, l: Label<T, W, V>, id: U64)
    requires Sound(s) && Enabled(s, l) && id < s.m.nextId && id !in s.m.subscribers
    ensures s.m.nextId <= Next(beh, s, l).m.nextId && id !in Next(beh, s, l).m.subscribers
  {
  }

  /** An id that has been issued and removed never comes back: in no continuation of the
      run is it registered again, and every call that names it is refused. */
  lemma {:induction false} SpentIdsStaySpent<T(!new), W(!new), V(!new)>(
      beh: Behaviour<T, W>, s: Sys<T, W, V>, ls: seq<Label<T, W, V>>, id: U64, update: T -> T, ev: EpollEvent)
    requires Sound(s) && Valid(beh, s, ls) && id < s.m.nextId && id !in s.m.subscribers
    ensures
      var m := After(beh, s, ls).m;
      && s.m.nextId <= m.nextId && id !in m.subscribers
      && Answer(beh, m, RemoveSubscriber(id)) == (m, Some(Removed(None)))
      && Answer(beh, m, SubscriberMut(id, update)) == (m, Some(Borrowed(None)))
      && Answer(beh, m, EventOps(id, OpAdd(ev))) == (m, Some(Did(Err(InvalidId))))
      && Answer(beh, m, EventOps(id, OpModify(ev))) == (m, Some(Did(Err(InvalidId))))
      && Answer(beh, m, EventOps(id, OpRemove(ev))) == (m, Some(Did(Err(InvalidId))))
    decreases |ls|
  {
    if ls == [] {
      UnknownIdIsRefused(beh, s.m, id, update, ev);
    } else {
      StepIsSound(beh, s, ls[0]);
      StepKeepsIdsSpent(beh, s, ls[0], id);
      SpentIdsStaySpent(beh, Next(beh, s, ls[0]), ls[1..], id, update, ev);
    }
  }

  /** Once `remove_subscriber` has returned a subscriber its id is gone: in every continuation it is
      not registered, and every call with it is refused. */
  lemma RemovedIdStaysGone<T(!new), W(!new), V(!new)>(
      beh: Behaviour<T, W>, s: Sys<T, W, V>, ls: seq<Label<T, W, V>>, update: T -> T, ev: EpollEvent)
    requires Sound(s) && Removes(s) && Enabled(s, Tick) && Valid(beh, Next(beh, s, Tick), ls)
    ensures
      var id := s.pc.c.Next(s.pc.past).id;
      var m := After(beh, Next(beh, s, Tick), ls).m;
      && Next(beh, s, Tick).m.subscribers == s.m.subscribers - {id}
      && Next(beh, s, Tick).pc == Executing(s.pc.who, s.pc.c, s.pc.past + [Removed(Some(s.m.subscribers[id]))])
      && id !in m.subscribers
      && Answer(beh, m, RemoveSubscriber(id)) == (m, Some(Removed(None)))
      && Answer(beh, m, SubscriberMut(id, update)) == (m, Some(Borrowed(None)))
      && Answer(beh, m, EventOps(id, OpAdd(ev))) == (m, Some(Did(Err(InvalidId))))
      && Answer(beh, m, EventOps(id, OpModify(ev))) == (m, Some(Did(Err(InvalidId))))
      && Answer(beh, m, EventOps(id, OpRemove(ev))) == (m, Some(Did(Err(InvalidId))))
  {
    var id := s.pc.c.Next(s.pc.past).id;
    SubscriberIsRemoved(beh, s.m, id);
    StepIsSound(beh, s, Tick);
    assert id < Next(beh, s, Tick).m.nextId;
    SpentIdsStaySpent(beh, Next(beh, s, Tick), ls, id, update, ev);
  }

  /** The next step hands out an id. */
  predicate Issues<T, W, V>(s: Sys<T, W, V>, l: Label<T, W, V>) {
    && l.Tick? && s.pc.Executing? && s.m.nextId < U64_MAX
    && !s.pc.c.Stopped(s.pc.past) && s.pc.c.Next(s.pc.past).AddSubscriber?
  }

  lemma {:induction false} IdsOnlyGrow<T(!new), W(!new), V(!new)>(
      beh: Behaviour<T, W>, s: Sys<T, W, V>, ls: seq<Label<T, W, V>>)
    requires Valid(beh, s, ls)
    ensures s.m.nextId <= After(beh, s, ls).m.nextId
    decreases |ls|
  {
    if ls != [] {
      IdsOnlyGrow(beh, Next(beh, s, ls[0]), ls[1..]);
    }
  }

  /** No id is issued twice in a run, and a new one is registered at once, with no
      descriptor, watch list or earlier subscriber of its own. */
  lemma IssuedIdsAreDistinct<T(!new), W(!new), V(!new)>(
      beh: Behaviour<T, W>, s: Sys<T, W, V>, l: Label<T, W, V>, ls: seq<Label<T, W, V>>, l2: Label<T, W, V>)
    requires Sound(s) && Enabled(s, l) && Issues(s, l) && Valid(beh, Next(beh, s, l), ls)
    requires Issues(After(beh, Next(beh, s, l), ls), l2)
    ensures s.m.nextId != After(beh, Next(beh, s, l), ls).m.nextId
    ensures s.m.nextId !in s.m.subscribers && s.m.nextId !in s.m.ep.watch
    ensures forall fd :: fd in s.m.ep.dispatch ==> s.m.ep.dispatch[fd] != s.m.nextId
    ensures Next(beh, s, l).pc.Initialising? && Next(beh, s, l).pc.id == s.m.nextId
    ensures s.m.nextId in Next(beh, s, l).m.subscribers
  {
    IdsOnlyGrow(beh, Next(beh, s, l), ls);
    NewIdIsUnused(s.m);
  }

  // ---------- exact agreement ----------

  /** The step does not remove another subscriber's registration. */
  predicate OwnedStep<T, W, V>(s: Sys<T, W, V>, l: Label<T, W, V>) {
    l.Tick? && NextOp(s.m, s.pc).Some? ==> Owned(s.m.ep, NextOp(s.m, s.pc).value.0, NextOp(s.m, s.pc).value.1)
  }

  /** The step does not close a descriptor while it is registered. */
  predicate CarefulStep<T, W, V>(s: Sys<T, W, V>, l: Label<T, W, V>) {
    && (l.Tick? && NextOp(s.m, s.pc).Some? && NextOp(s.m, s.pc).value.1.Close? ==>
          NextOp(s.m, s.pc).value.1.fd !in s.m.ep.dispatch)
    && (l.Env? && l.e.Closed? ==> l.e.fd !in s.m.ep.dispatch)
  }

  ghost predicate OwnedRun<T, W, V>(beh: Behaviour<T, W>, s: Sys<T, W, V>, ls: seq<Label<T, W, V>>)
    requires Valid(beh, s, ls)
    decreases |ls|
  {
    ls == [] || (OwnedStep(s, ls[0]) && OwnedRun(beh, Next(beh, s, ls[0]), ls[1..]))
  }

  ghost predicate CarefulRun<T, W, V>(beh: Behaviour<T, W>, s: Sys<T, W, V>, ls: seq<Label<T, W, V>>)
    requires Valid(beh, s, ls)
    decreases |ls|
  {
    ls == [] || (CarefulStep(s, ls[0]) && CarefulRun(beh, Next(beh, s, ls[0]), ls[1..]))
  }

  lemma StepIsExact<T(!new), W(!new), V(!new)>(beh: Behaviour<T, W>, s: Sys<T, W, V>, l: Label<T, W, V>)
    requires Sound(s) && Enabled(s, l) && Exact(s.m.ep) && OwnedStep(s, l)
    ensures Exact(Next(beh, s, l).m.ep)
  {
    StepChangesIndex(beh, s, l);
    if l.Tick? && NextOp(s.m, s.pc).Some? {
      ApplyKeepsExactIff(s.m.ep, s.m.chan, NextOp(s.m, s.pc).value.0, NextOp(s.m, s.pc).value.1);
    } else if l.Tick? && Removes(s) {
      RemovalFrame(s.m.ep, s.m.chan, s.pc.c.Next(s.pc.past).id);
    }
  }

  lemma RemovalKeepsWatched(w: Wrapper, id: U64)
    requires Watched(w)
    ensures Watched(Index.RemoveSubscriber(w, id))
  {
    RemoveAllIs(w.(watch := w.watch - {id}), WatchListOf(w, id));
  }

  lemma StepIsWatched<T(!new), W(!new), V(!new)>(beh: Behaviour<T, W>, s: Sys<T, W, V>, l: Label<T, W, V>)
    requires Sound(s) && Enabled(s, l) && Watched(s.m.ep) && CarefulStep(s, l)
    ensures Watched(Next(beh, s, l).m.ep)
  {
    StepChangesIndex(beh, s, l);
    if l.Tick? && NextOp(s.m, s.pc).Some? {
      ApplyKeepsWatched(s.m.ep, s.m.chan, NextOp(s.m, s.pc).value.0, NextOp(s.m, s.pc).value.1);
    } else if l.Tick? && Removes(s) {
      RemovalKeepsWatched(s.m.ep, s.pc.c.Next(s.pc.past).id);
    }
  }

  lemma {:induction false} OwnedRunIsExact<T(!new), W(!new), V(!new)>(
      beh: Behaviour<T, W>, s: Sys<T, W, V>, ls: seq<Label<T, W, V>>)
    requires Sound(s) && Exact(s.m.ep) && Valid(beh, s, ls) && OwnedRun(beh, s, ls)
    ensures Exact(After(beh, s, ls).m.ep)
    decreases |ls|
  {
    if ls != [] {
      StepIsSound(beh, s, ls[0]);
      StepIsExact(beh, s, ls[0]);
      OwnedRunIsExact(beh, Next(beh, s, ls[0]), ls[1..]);
    }
  }

  lemma {:induction false} CarefulRunIsWatched<T(!new), W(!new), V(!new)>(
      beh: Behaviour<T, W>, s: Sys<T, W, V>, ls: seq<Label<T, W, V>>)
    requires Sound(s) && Watched(s.m.ep) && Valid(beh, s, ls) && CarefulRun(beh, s, ls)
    ensures Watched(After(beh, s, ls).m.ep)
    decreases |ls|
  {
    if ls != [] {
      StepIsSound(beh, s, ls[0]);
      StepIsWatched(beh, s, ls[0]);
      CarefulRunIsWatched(beh, Next(beh, s, ls[0]), ls[1..]);
    }
  }

  /** In every run in which each `remove` names a descriptor of the caller, the two maps
      are exact inverses, and watch lists are free of duplicates and pairwise disjoint. */
  lemma MapsAreInverses<T(!new), W(!new), V(!new)>(
      beh: Behaviour<T, W>, capacity: nat, chan: RawFd, open: set<RawFd>, w: W, ls: seq<Label<T, W, V>>)
    requires Descriptors(chan, open) && Valid(beh, Start(capacity, chan, open, w), ls)
    requires OwnedRun(beh, Start(capacity, chan, open, w), ls)
    ensures
      var ep := After(beh, Start(capacity, chan, open, w), ls).m.ep;
      && (forall id, fd :: fd in ep.dispatch && ep.dispatch[fd] == id <==> id in ep.watch && fd in ep.watch[id])
      && (forall id :: id in ep.watch ==> NoDuplicates(ep.watch[id]))
      && (forall a, b, fd :: a in ep.watch && b in ep.watch && fd in ep.watch[a] && fd in ep.watch[b] ==> a == b)
  {
    StartIsSound<T, W, V>(capacity, chan, open, w);
    RunIsSound(beh, Start(capacity, chan, open, w), ls);
    OwnedRunIsExact(beh, Start(capacity, chan, open, w), ls);
  }

  /** In every run, the kernel watches only what is dispatched, and the channel. If no
      descriptor is closed while registered it watches exactly that. In any case an `add` is
      refused with `FdAlreadyRegistered` exactly on a collision in the kernel, unless its
      descriptor is one that was closed while registered. */
  lemma KernelAgrees<T(!new), W(!new), V(!new)>(
      beh: Behaviour<T, W>, capacity: nat, chan: RawFd, open: set<RawFd>, w: W, ls: seq<Label<T, W, V>>, id: U64,
      ev: EpollEvent)
    requires Descriptors(chan, open) && Valid(beh, Start(capacity, chan, open, w), ls)
    ensures
      var s := After(beh, Start(capacity, chan, open, w), ls);
      && s.m.ep.kernel.interest.Keys - {s.m.chan} <= s.m.ep.dispatch.Keys
      && ((Apply(s.m.ep, id, OpAdd(ev)).1 == Err(FdAlreadyRegistered)
           <==> Fd(ev) in s.m.ep.kernel.interest && Fd(ev) != s.m.chan)
          <==> !(Fd(ev) in s.m.ep.dispatch && Fd(ev) !in s.m.ep.kernel.interest))
      && (CarefulRun(beh, Start(capacity, chan, open, w), ls) ==>
            && s.m.ep.kernel.interest.Keys == s.m.ep.dispatch.Keys + {s.m.chan}
            && !(Fd(ev) in s.m.ep.dispatch && Fd(ev) !in s.m.ep.kernel.interest))
  {
    StartIsSound<T, W, V>(capacity, chan, open, w);
    RunIsSound(beh, Start(capacity, chan, open, w), ls);
    if CarefulRun(beh, Start(capacity, chan, open, w), ls) {
      CarefulRunIsWatched(beh, Start(capacity, chan, open, w), ls);
    }
  }

  /** A descriptor that its owner closed without removing: `remove` fails and changes
      nothing, yet removing the subscriber still clears every trace of it. */
  lemma ClosedDescriptorHeals<T(!new), W(!new), V(!new)>(
      beh: Behaviour<T, W>, s0: Sys<T, W, V>, ls: seq<Label<T, W, V>>, ev: EpollEvent)
    requires Sound(s0) && Valid(beh, s0, ls)
    ensures
      var s := After(beh, s0, ls);
      Fd(ev) in s.m.ep.dispatch && Fd(ev) !in s.m.ep.kernel.interest ==>
        var owner := s.m.ep.dispatch[Fd(ev)];
        var healed := Index.RemoveSubscriber(s.m.ep, owner);
        && Apply(s.m.ep, owner, OpRemove(ev)) == (s.m.ep, Err(Epoll))
        && owner in s.m.subscribers
        && Fd(ev) !in healed.dispatch && Fd(ev) !in healed.kernel.interest && owner !in healed.watch
        && |healed.ready| == |s.m.ep.ready|
        && (forall j :: 0 <= j < |s.m.ep.ready| && Fd(s.m.ep.ready[j]) == Fd(ev) ==> healed.ready[j] == DEFAULT_EVENT)
  {
    RunIsSound(beh, s0, ls);
    var s := After(beh, s0, ls);
    if Fd(ev) in s.m.ep.dispatch {
      RemovalIsComplete(s.m.ep, s.m.chan, s.m.ep.dispatch[Fd(ev)]);
    }
  }
}
