// `CounterSubscriberWithData` in a manager that other threads use: in every interleaving its
// counters are the events polled on its descriptors (src/utilities/subscribers.rs,
// src/manager.rs, src/endpoint.rs).

module CounterRuns {
  import opened EventData
  import opened Index
  import opened Dispatch
  import opened Closures
  import opened Protocol
  import opened ProtocolSafety
  import opened CounterClient

  /** All events polled in a history, in order. */
  function Polls<T, W, V>(log: seq<Item<T, W, V>>): seq<EpollEvent> {
    if log == [] then []
    else
      var last := log[|log| - 1];
      Polls(log[..|log| - 1]) + if last.Poll? then last.batch else []
  }

  lemma PollsLast<T, W, V>(log: seq<Item<T, W, V>>, item: Item<T, W, V>)
    ensures Polls(log + [item]) == if item.Poll? then Polls(log) + item.batch else Polls(log)
  {
    assert (log + [item])[..|log|] == log;
  }

  // ---------- what is asked of the others ----------

  /** The operation neither registers anything for `id` nor touches its descriptors. */
  ghost predicate GentleOp(w: Wrapper, x: U64, op: Op, id: U64, t: Trio) {
    && (x == id ==> op.Open? || op.Close?)
    && !Touches(Done(x, op, Apply(w, x, op).1), Fds(t))
  }

  /** A step by which nobody, the world outside included, touches the descriptors of `id` or the
      subscriber itself; and the kernel delivers its events as IN. */
  ghost predicate GentleStep<U, W, V>(
      others: Behaviour<Member<U>, W>, s: Sys<Member<U>, W, V>, l: Label<Member<U>, W, V>, id: U64, t: Trio) {
    match l
    case Wait(batch) => OnlyIn(batch, t)
    case Env(e) => e.Closed? ==> e.fd !in Fds(t)
    case Tick =>
      if NextOp(s.m, s.pc).Some? then GentleOp(s.m.ep, NextOp(s.m, s.pc).value.0, NextOp(s.m, s.pc).value.1, id, t)
      else s.pc.Executing? && !s.pc.c.Stopped(s.pc.past) && !s.pc.c.Next(s.pc.past).AddSubscriber? ==>
        Gentle(others, s.m, s.pc.c.Next(s.pc.past), id, t)
    case _ => true
  }

  ghost predicate GentleRun<U, W, V>(
      others: Behaviour<Member<U>, W>, s: Sys<Member<U>, W, V>, ls: seq<Label<Member<U>, W, V>>, id: U64, t: Trio)
    requires Valid(Client(others), s, ls)
    decreases |ls|
  {
    ls != [] ==>
      && GentleStep(others, s, ls[0], id, t)
      && GentleRun(others, Next(Client(others), s, ls[0]), ls[1..], id, t)
  }

  // ---------- the invariant ----------

  ghost predicate Quiet<U, W>(m: Manager<Member<U>, W>, id: U64, t: Trio) {
    Standing(m, id, t) && !m.subscribers[id].s.toggle
  }

  /** Entries of the batch that have not been counted yet. */
  function Uncounted<T, W, V>(s: Sys<T, W, V>): seq<EpollEvent> {
    match s.pc
    case Dispatching(i, _, _) => if i <= |s.past.batch| then s.past.batch[i..] else []
    case Processing(_, _, _, i, _, _) => if i <= |s.past.batch| then s.past.batch[i..] else []
    case _ => []
  }

  /** The batch under way holds, of `id`, what it registered, and none of it has been removed. */
  ghost predicate BatchIntact<U, W, V>(s: Sys<Member<U>, W, V>, id: U64, t: Trio) {
    InBatch(s.pc) ==>
      && s.past.before <= |s.past.done| && RemovedSincePoll(s.past) !! Fds(t)
      && OwnEvents(s.past.batch, s.past.owners, id, t)
  }

  /** Its own `process` makes no call and is about to count the event; nobody else's `process` has
      an event of its. */
  ghost predicate CodeIntact<U, W, V>(s: Sys<Member<U>, W, V>, id: U64, t: Trio)
    requires Quiet(s.m, id, t)
  {
    match s.pc
    case Processing(x, p, h, i, _, _) =>
      && i < |s.past.batch|
      && (if x == id then
            && Fd(s.past.batch[i]) in Fds(t) && p.Stopped(h)
            && p.outcome(h).0 == Counting(CountedOn(s.m.subscribers[id].s, Fd(s.past.batch[i])))
          else Fd(s.past.batch[i]) !in Fds(t))
    case Initialising(_, _, _, x, _, _) => x != id
    case _ => true
  }

  /** Counted so far plus uncounted is what the polls since have delivered. */
  ghost predicate Exactly<U, W, V>(s: Sys<Member<U>, W, V>, id: U64, t: Trio, c0: Counters, base: seq<EpollEvent>)
    requires Quiet(s.m, id, t)
  {
    && base <= Polls(s.past.log)
    && CountedAll(s.m.subscribers[id].s, Uncounted(s)) == CountedAll(c0, Polls(s.past.log)[|base|..])
  }

  ghost predicate Keeping<U, W, V>(s: Sys<Member<U>, W, V>, id: U64, t: Trio, c0: Counters, base: seq<EpollEvent>) {
    && Sound(s) && Quiet(s.m, id, t)
    && BatchIntact(s, id, t) && CodeIntact(s, id, t) && Exactly(s, id, t, c0, base)
  }

  // ---------- one step ----------

  lemma OpKeepsQuiet<U(!new), W(!new), V(!new)>(s: Sys<Member<U>, W, V>, x: U64, op: Op, id: U64, t: Trio)
    requires Inv(s.m) && Quiet(s.m, id, t) && GentleOp(s.m.ep, x, op, id, t)
    ensures Quiet(Protocol.Perform(s, x, op).0.m, id, t)
  {
    GentleOpKeepsHeld(s.m.ep, s.m.chan, id, t, x, op);
  }

  lemma OpKeepsBatchIntact<U(!new), W(!new), V(!new)>(s: Sys<Member<U>, W, V>, x: U64, op: Op, id: U64, t: Trio)
    requires s.past.before <= |s.past.done| && RemovedSincePoll(s.past) !! Fds(t) && GentleOp(s.m.ep, x, op, id, t)
    ensures RemovedSincePoll(Protocol.Perform(s, x, op).0.past) !! Fds(t)
  {
    var d := Done(x, op, Apply(s.m.ep, x, op).1);
    assert (s.past.done + [d])[s.past.before..] == s.past.done[s.past.before..] + [d];
    RemovedInConcat(s.past.done[s.past.before..], [d]);
  }

  /** The event of an entry that is not its own does not count. */
  lemma EntryCounts(s: Counters, batch: seq<EpollEvent>, i: nat, t: Trio, chan: RawFd)
    requires i < |batch| && Registers(s, t) && Separate(t, chan) && !s.toggle
    ensures Fd(batch[i]) !in Fds(t) ==> CountedAll(s, batch[i..]) == CountedAll(s, batch[i + 1..])
    ensures Fd(batch[i]) in Fds(t) ==>
              CountedAll(s, batch[i..]) == CountedAll(CountedOn(s, Fd(batch[i])), batch[i + 1..])
  {
    CountedOneMore(s, batch, i, t, chan);
  }

  /** Where the loop turns to the subscriber's `process`. */
  lemma OwnProcessStarts<U(!new), W(!new)>(
      others: Behaviour<Member<U>, W>, m: Manager<Member<U>, W>, id: U64, t: Trio, ev: EpollEvent)
    requires Quiet(m, id, t) && AsRegistered(ev, t)
    ensures
      var p := Client(others).process(m.subscribers[id], m.world, ev);
      p.Stopped([]) && p.outcome([]).0 == Counting(CountedOn(m.subscribers[id].s, Fd(ev)))
  {
    var shared := m.world;
    var done := (x: Counters) => (Member<U>.Counting(x), shared);
    assert Client(others).process(m.subscribers[id], m.world, ev) == Process(m.subscribers[id].s, ev, done);
    CountsWhereItBelongs(m.ep, id, m.subscribers[id].s, t, ev, m.chan, done);
  }

  /** The loop turns to the subscriber exactly for its own events. */
  lemma EntryIsItsOwn<U(!new), W(!new), V(!new)>(s: Sys<Member<U>, W, V>, id: U64, t: Trio)
    requires Sound(s) && Quiet(s.m, id, t) && BatchIntact(s, id, t) && s.pc.Dispatching? && s.pc.i < s.pc.n
    ensures s.pc.n == |s.past.batch| <= |s.m.ep.ready| && !Look(s.m, s.pc.i).Broken?
    ensures Look(s.m, s.pc.i) == ToProcess(id) <==> Fd(s.past.batch[s.pc.i]) in Fds(t)
    ensures Look(s.m, s.pc.i).ToProcess? ==> s.m.ep.ready[s.pc.i] == s.past.batch[s.pc.i]
    ensures Fd(s.past.batch[s.pc.i]) in Fds(t) ==> AsRegistered(s.past.batch[s.pc.i], t)
  {
    SoundBatchLooksAsPolled(s.m, s.past, s.pc.i, s.pc.n);
  }

  /** Turning to an entry counts nothing, and passes over none of its own events. */
  lemma TurningKeepsCount<U(!new), W(!new), V(!new)>(
      others: Behaviour<Member<U>, W>, s: Sys<Member<U>, W, V>, id: U64, t: Trio, c0: Counters, base: seq<EpollEvent>)
    requires Quiet(s.m, id, t) && Exactly(s, id, t, c0, base)
    requires s.pc.Dispatching? && s.pc.i < s.pc.n == |s.past.batch| <= |s.m.ep.ready| && !Look(s.m, s.pc.i).Broken?
    requires Look(s.m, s.pc.i) == ToProcess(id) <==> Fd(s.past.batch[s.pc.i]) in Fds(t)
    ensures Exactly(TickDispatching(Client(others), s), id, t, c0, base)
  {
    var s1 := TickDispatching(Client(others), s);
    PollsLast(s.past.log, Entry(s.pc.i, []));
    assert s1.m == s.m && Polls(s1.past.log) == Polls(s.past.log);
    if Fd(s.past.batch[s.pc.i]) in Fds(t) {
      assert Uncounted(s1) == Uncounted(s);
    } else {
      EntryCounts(s.m.subscribers[id].s, s.past.batch, s.pc.i, t, s.m.chan);
    }
  }

  lemma DispatchingKeepsCount<U(!new), W(!new), V(!new)>(
      others: Behaviour<Member<U>, W>, s: Sys<Member<U>, W, V>, id: U64, t: Trio, c0: Counters, base: seq<EpollEvent>)
    requires Keeping(s, id, t, c0, base) && s.pc.Dispatching?
    ensures Exactly(TickDispatching(Client(others), s), id, t, c0, base)
  {
    if s.pc.i < s.pc.n {
      EntryIsItsOwn(s, id, t);
      TurningKeepsCount(others, s, id, t, c0, base);
    }
  }

  lemma DispatchingKeepsCode<U(!new), W(!new), V(!new)>(
      others: Behaviour<Member<U>, W>, s: Sys<Member<U>, W, V>, id: U64, t: Trio)
    requires Sound(s) && Quiet(s.m, id, t) && BatchIntact(s, id, t) && s.pc.Dispatching?
    ensures CodeIntact(TickDispatching(Client(others), s), id, t)
  {
    if s.pc.i < s.pc.n {
      EntryIsItsOwn(s, id, t);
      if Look(s.m, s.pc.i) == ToProcess(id) {
        OwnProcessStarts(others, s.m, id, t, s.past.batch[s.pc.i]);
      }
    }
  }

  lemma DispatchingKeepsBatch<U(!new), W(!new), V(!new)>(
      others: Behaviour<Member<U>, W>, s: Sys<Member<U>, W, V>, id: U64, t: Trio)
    requires s.pc.Dispatching? && BatchIntact(s, id, t)
    ensures BatchIntact(TickDispatching(Client(others), s), id, t) && TickDispatching(Client(others), s).m == s.m
  {
  }

  lemma DispatchingKeeps<U(!new), W(!new), V(!new)>(
      others: Behaviour<Member<U>, W>, s: Sys<Member<U>, W, V>, id: U64, t: Trio, c0: Counters, base: seq<EpollEvent>)
    requires Keeping(s, id, t, c0, base) && s.pc.Dispatching?
    ensures Keeping(TickDispatching(Client(others), s), id, t, c0, base)
  {
    DispatchingIsSound(Client(others), s);
    DispatchingKeepsBatch(others, s, id, t);
    DispatchingKeepsCount(others, s, id, t, c0, base);
    DispatchingKeepsCode(others, s, id, t);
  }

  lemma ProcessingKeeps<U(!new), W(!new), V(!new)>(
      others: Behaviour<Member<U>, W>, s: Sys<Member<U>, W, V>, id: U64, t: Trio, c0: Counters, base: seq<EpollEvent>)
    requires Keeping(s, id, t, c0, base) && s.pc.Processing? && Enabled(s, Tick) && GentleStep(others, s, Tick, id, t)
    ensures Keeping(TickProcessing(s), id, t, c0, base)
  {
    var Processing(x, p, h, i, n, endpoint) := s.pc;
    ProcessingIsSound(Client(others), s);
    if p.Stopped(h) {
      EntryCounts(s.m.subscribers[id].s, s.past.batch, i, t, s.m.chan);
    } else {
      OpKeepsQuiet(s, x, p.Next(h), id, t);
      OpKeepsBatchIntact(s, x, p.Next(h), id, t);
    }
  }

  /** Between batches, what leaves the subscriber and the polls alone keeps the count. */
  lemma OutsideKeeps<U(!new), W(!new), V(!new)>(
      s: Sys<Member<U>, W, V>, s1: Sys<Member<U>, W, V>, id: U64, t: Trio, c0: Counters, base: seq<EpollEvent>)
    requires Keeping(s, id, t, c0, base) && !InBatch(s.pc)
    requires Sound(s1) && Quiet(s1.m, id, t) && s1.m.subscribers[id] == s.m.subscribers[id]
    requires Polls(s1.past.log) == Polls(s.past.log) && !InBatch(s1.pc) && (s1.pc.Initialising? ==> s1.pc.id != id)
    ensures Keeping(s1, id, t, c0, base)
  {
  }

  lemma ExecutingKeepsQuiet<U(!new), W(!new), V(!new)>(
      others: Behaviour<Member<U>, W>, s: Sys<Member<U>, W, V>, id: U64, t: Trio)
    requires Inv(s.m) && Quiet(s.m, id, t) && s.pc.Executing? && Enabled(s, Tick)
    requires GentleStep(others, s, Tick, id, t)
    ensures
      var s1 := TickExecuting(Client(others), s);
      && Quiet(s1.m, id, t) && s1.m.subscribers[id] == s.m.subscribers[id] && s1.past.log == s.past.log
      && !InBatch(s1.pc) && (s1.pc.Initialising? ==> s1.pc.id != id)
  {
    var Executing(who, c, past) := s.pc;
    if !c.Stopped(past) {
      var req := c.Next(past);
      if NextOp(s.m, s.pc).Some? {
        OpKeepsQuiet(s, req.id, req.op, id, t);
      } else if !req.AddSubscriber? && !req.EventOps? {
        GentleKeepsStanding(others, s.m, req, id, t);
      }
    }
  }

  lemma ExecutingKeeps<U(!new), W(!new), V(!new)>(
      others: Behaviour<Member<U>, W>, s: Sys<Member<U>, W, V>, id: U64, t: Trio, c0: Counters, base: seq<EpollEvent>)
    requires Keeping(s, id, t, c0, base) && s.pc.Executing? && Enabled(s, Tick) && GentleStep(others, s, Tick, id, t)
    ensures Keeping(TickExecuting(Client(others), s), id, t, c0, base)
  {
    ExecutingIsSound(Client(others), s);
    ExecutingKeepsQuiet(others, s, id, t);
    OutsideKeeps(s, TickExecuting(Client(others), s), id, t, c0, base);
  }

  lemma InitialisingKeeps<U(!new), W(!new), V(!new)>(
      others: Behaviour<Member<U>, W>, s: Sys<Member<U>, W, V>, id: U64, t: Trio, c0: Counters, base: seq<EpollEvent>)
    requires Keeping(s, id, t, c0, base) && s.pc.Initialising? && Enabled(s, Tick)
    requires GentleStep(others, s, Tick, id, t)
    ensures Keeping(TickInitialising(s), id, t, c0, base)
  {
    InitialisingIsSound(s);
    if !s.pc.p.Stopped(s.pc.h) {
      OpKeepsQuiet(s, s.pc.id, s.pc.p.Next(s.pc.h), id, t);
    }
    OutsideKeeps(s, TickInitialising(s), id, t, c0, base);
  }

  lemma PollsSame<T, W, V>(log: seq<Item<T, W, V>>, noted: seq<Item<T, W, V>>)
    requires noted == [] || (|noted| == 1 && !noted[0].Poll?)
    ensures Polls(log + noted) == Polls(log)
  {
    if noted == [] {
      assert log + noted == log;
    } else {
      assert noted == [noted[0]];
      PollsLast(log, noted[0]);
    }
  }

  lemma SinceKeeps<U(!new), W(!new), V(!new)>(
      s: Sys<Member<U>, W, V>, n: nat, id: U64, t: Trio, c0: Counters, base: seq<EpollEvent>)
    requires Keeping(s, id, t, c0, base)
    ensures Keeping(s.(past := s.past.(since := n)), id, t, c0, base)
  {
  }

  /** The steps of the drain outside closures. */
  lemma DrainingKeeps<U(!new), W(!new), V(!new)>(
      others: Behaviour<Member<U>, W>, s: Sys<Member<U>, W, V>, id: U64, t: Trio, c0: Counters, base: seq<EpollEvent>)
    requires Keeping(s, id, t, c0, base) && (s.pc.Reading? || s.pc.Receiving? || s.pc.Replying?) && Enabled(s, Tick)
    ensures Keeping(TickManager(Client(others), s), id, t, c0, base)
  {
    TickIsSound(Client(others), s);
    var noted: seq<Item<Member<U>, W, V>> :=
      if s.pc.Receiving? && s.ch.queue != [] then [Executed(s.ch.queue[0].code, true, [])] else [];
    assert s.past.log + [] == s.past.log;
    PollsSame(s.past.log, noted);
    OutsideKeeps(s, TickManager(Client(others), s), id, t, c0, base);
  }

  lemma TickKeeps<U(!new), W(!new), V(!new)>(
      others: Behaviour<Member<U>, W>, s: Sys<Member<U>, W, V>, id: U64, t: Trio, c0: Counters, base: seq<EpollEvent>)
    requires Keeping(s, id, t, c0, base) && Enabled(s, Tick) && GentleStep(others, s, Tick, id, t)
    ensures Keeping(TickManager(Client(others), s), id, t, c0, base)
  {
    match s.pc {
      case Dispatching(_, _, _) => DispatchingKeeps(others, s, id, t, c0, base);
      case Processing(_, _, _, _, _, _) => ProcessingKeeps(others, s, id, t, c0, base);
      case Executing(_, _, _) => ExecutingKeeps(others, s, id, t, c0, base);
      case Initialising(_, _, _, _, _, _) => InitialisingKeeps(others, s, id, t, c0, base);
      case _ => DrainingKeeps(others, s, id, t, c0, base);
    }
  }

  lemma PolledAreUncounted(
      s: Counters, c0: Counters, base: seq<EpollEvent>, polls: seq<EpollEvent>, batch: seq<EpollEvent>)
    requires base <= polls && CountedAll(s, []) == CountedAll(c0, polls[|base|..])
    ensures base <= polls + batch && CountedAll(s, batch) == CountedAll(c0, (polls + batch)[|base|..])
  {
    var seen := polls[|base|..];
    assert (polls + batch)[|base|..] == seen + batch;
    CountedTwice(c0, seen, batch);
    assert CountedAll(s, []) == s;
  }

  lemma WaitKeeps<U(!new), W(!new), V(!new)>(
      others: Behaviour<Member<U>, W>, s: Sys<Member<U>, W, V>, batch: seq<EpollEvent>, id: U64, t: Trio,
      c0: Counters, base: seq<EpollEvent>)
    requires Keeping(s, id, t, c0, base) && Enabled(s, Wait(batch)) && OnlyIn(batch, t)
    ensures Keeping(Next(Client(others), s, Wait(batch)), id, t, c0, base)
  {
    var s1 := Next(Client(others), s, Wait(batch));
    StepIsSound(Client(others), s, Wait(batch));
    PollStartsWalk(s.m, id, t, batch);
    assert s.past.done[|s.past.done|..] == [] && RemovedIn([]) == {};
    PollsLast(s.past.log, Poll(batch));
    PolledAreUncounted(s.m.subscribers[id].s, c0, base, Polls(s.past.log), batch);
    assert Uncounted(s1) == batch;
  }

  lemma EffectKeepsQuiet<U(!new), W(!new)>(m: Manager<Member<U>, W>, e: Effect<W>, id: U64, t: Trio)
    requires Inv(m) && Quiet(m, id, t) && (e.Closed? ==> e.fd !in Fds(t))
    ensures Quiet(ApplyEffect(m, e), id, t) && ApplyEffect(m, e).subscribers == m.subscribers
  {
    match e {
      case Opened(fd) => GentleOpKeepsHeld(m.ep, m.chan, id, t, 0, Open(fd));
      case Closed(fd) => GentleOpKeepsHeld(m.ep, m.chan, id, t, 0, Close(fd));
      case Shared(_) =>
    }
  }

  lemma EffectKeepsPolls<T, W, V>(past: Past<T, W, V>, inItem: bool, e: Effect<W>)
    ensures Polls(Witness(past, inItem, e).log) == Polls(past.log)
  {
    var n := |past.log|;
    if inItem && n > 0 {
      PollsLast(past.log[..n - 1], Interrupted(past.log[n - 1], past.since, e));
    } else {
      PollsLast(past.log, Outside(e));
    }
  }

  lemma EffectCarries<U(!new), W(!new), V(!new)>(
      s: Sys<Member<U>, W, V>, s1: Sys<Member<U>, W, V>, id: U64, t: Trio, c0: Counters, base: seq<EpollEvent>)
    requires Keeping(s, id, t, c0, base) && Sound(s1) && Quiet(s1.m, id, t) && s1.m.subscribers == s.m.subscribers
    requires s1.pc == s.pc && s1.past == s.past.(log := s1.past.log, since := s1.past.since)
    requires Polls(s1.past.log) == Polls(s.past.log)
    ensures Keeping(s1, id, t, c0, base)
  {
  }

  lemma EffectKeeps<U(!new), W(!new), V(!new)>(
      others: Behaviour<Member<U>, W>, s: Sys<Member<U>, W, V>, e: Effect<W>, id: U64, t: Trio,
      c0: Counters, base: seq<EpollEvent>)
    requires Keeping(s, id, t, c0, base) && Enabled(s, Env(e)) && GentleStep(others, s, Env(e), id, t)
    ensures Keeping(Disturb(s, e), id, t, c0, base)
  {
    StepIsSound(Client(others), s, Env(e));
    EffectKeepsQuiet(s.m, e, id, t);
    EffectKeepsPolls(s.past, InItem(s.pc), e);
    EffectCarries(s, Disturb(s, e), id, t, c0, base);
  }

  lemma CallKeeps<U(!new), W(!new), V(!new)>(
      others: Behaviour<Member<U>, W>, s: Sys<Member<U>, W, V>, code: W -> Closure<Member<U>, W, V>,
      id: U64, t: Trio, c0: Counters, base: seq<EpollEvent>)
    requires Keeping(s, id, t, c0, base) && Enabled(s, Call(code))
    ensures Keeping(Next(Client(others), s, Call(code)), id, t, c0, base)
  {
    StepIsSound(Client(others), s, Call(code));
    PollsLast(s.past.log, Executed(code, false, []));
    OutsideKeeps(s, Next(Client(others), s, Call(code)), id, t, c0, base);
  }

  lemma SenderKeeps<U(!new), W(!new), V(!new)>(
      others: Behaviour<Member<U>, W>, s: Sys<Member<U>, W, V>, l: Label<Member<U>, W, V>, id: U64, t: Trio,
      c0: Counters, base: seq<EpollEvent>)
    requires Keeping(s, id, t, c0, base) && Enabled(s, l) && (l.Push? || l.Write? || l.Kick? || l.Collect?)
    ensures Keeping(Next(Client(others), s, l), id, t, c0, base)
  {
    StepIsSound(Client(others), s, l);
  }

  lemma TickStepKeeps<U(!new), W(!new), V(!new)>(
      others: Behaviour<Member<U>, W>, s: Sys<Member<U>, W, V>, id: U64, t: Trio, c0: Counters, base: seq<EpollEvent>)
    requires Keeping(s, id, t, c0, base) && Enabled(s, Tick) && GentleStep(others, s, Tick, id, t)
    ensures Keeping(Next(Client(others), s, Tick), id, t, c0, base)
  {
    var s1 := TickManager(Client(others), s);
    var n := if InItem(s.pc) then s.past.since + 1 else 0;
    assert Next(Client(others), s, Tick) == s1.(past := s1.past.(since := n));
    TickKeeps(others, s, id, t, c0, base);
    SinceKeeps(s1, n, id, t, c0, base);
  }

  lemma StepKeeps<U(!new), W(!new), V(!new)>(
      others: Behaviour<Member<U>, W>, s: Sys<Member<U>, W, V>, l: Label<Member<U>, W, V>, id: U64, t: Trio,
      c0: Counters, base: seq<EpollEvent>)
    requires Keeping(s, id, t, c0, base) && Enabled(s, l) && GentleStep(others, s, l, id, t)
    ensures Keeping(Next(Client(others), s, l), id, t, c0, base)
  {
    match l {
      case Tick => TickStepKeeps(others, s, id, t, c0, base);
      case Wait(batch) => WaitKeeps(others, s, batch, id, t, c0, base);
      case Env(e) => EffectKeeps(others, s, e, id, t, c0, base);
      case Call(code) => CallKeeps(others, s, code, id, t, c0, base);
      case _ => SenderKeeps(others, s, l, id, t, c0, base);
    }
  }

  // ---------- every run ----------

  lemma {:induction false} RunKeepsCount<U(!new), W(!new), V(!new)>(
      others: Behaviour<Member<U>, W>, s: Sys<Member<U>, W, V>, ls: seq<Label<Member<U>, W, V>>, id: U64, t: Trio,
      c0: Counters, base: seq<EpollEvent>)
    requires Keeping(s, id, t, c0, base) && Valid(Client(others), s, ls) && GentleRun(others, s, ls, id, t)
    ensures Keeping(After(Client(others), s, ls), id, t, c0, base)
    decreases |ls|
  {
    if ls != [] {
      StepKeeps(others, s, ls[0], id, t, c0, base);
      RunKeepsCount(others, Next(Client(others), s, ls[0]), ls[1..], id, t, c0, base);
    }
  }

  /** In every run, whatever threads, closures, other subscribers and the world outside do in
      between, as long as none of them touches its descriptors or the subscriber itself: it
      stays registered, and whenever no batch is under way each counter has risen by exactly
      the events that the polls of the run have delivered on its descriptor. In the middle of
      a batch, those of the rest of the batch are still to be added. */
  lemma CountersAreExact<U(!new), W(!new), V(!new)>(
      others: Behaviour<Member<U>, W>, s0: Sys<Member<U>, W, V>, ls: seq<Label<Member<U>, W, V>>, id: U64, t: Trio)
    requires Sound(s0) && Quiet(s0.m, id, t) && !InBatch(s0.pc) && (s0.pc.Initialising? ==> s0.pc.id != id)
    requires Valid(Client(others), s0, ls) && GentleRun(others, s0, ls, id, t)
    ensures
      var s := After(Client(others), s0, ls);
      var c0 := s0.m.subscribers[id].s;
      && Standing(s.m, id, t) && Polls(s0.past.log) <= Polls(s.past.log)
      && var polled := Polls(s.past.log)[|Polls(s0.past.log)|..];
         && (!InBatch(s.pc) ==> s.m.subscribers[id] == Counting(CountedAll(c0, polled)))
         && (s.pc.Dispatching? && s.pc.i <= |s.past.batch| ==>
               CountedAll(s.m.subscribers[id].s, s.past.batch[s.pc.i..]) == CountedAll(c0, polled))
  {
    var c0 := s0.m.subscribers[id].s;
    assert CountedAll(c0, []) == c0;
    RunKeepsCount(others, s0, ls, id, t, c0, Polls(s0.past.log));
    var s := After(Client(others), s0, ls);
    assert CountedAll(s.m.subscribers[id].s, []) == s.m.subscribers[id].s;
  }
}
