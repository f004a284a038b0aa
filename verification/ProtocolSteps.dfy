// What a thread gets from each call on a `RemoteEndpoint`, and what the world outside does,
// as the steps of the transition system that make it up (src/endpoint.rs); and a call from
// one end to the other.

module ProtocolSteps {
  import opened EventData
  import opened Index
  import opened Dispatch
  import opened Closures
  import opened Protocol
  import opened ProtocolWakeup

  // ---------- the sender's side ----------

  /** The manager's thread may be at any place from which user code can send. */
  predicate MaySend<T, W, V>(s: Sys<T, W, V>, tid: nat) {
    SenderOf(s.ch, tid).Ready? && (tid == MANAGER ==> InUserCode(s.pc))
  }

  /** Only the channel is different, and in it nothing of any other thread. */
  ghost predicate OnlySender<T, W, V>(s: Sys<T, W, V>, s': Sys<T, W, V>, tid: nat) {
    && s'.m == s.m && s'.pc == s.pc && s'.past == s.past && s'.ch.replies == s.ch.replies
    && forall other :: other != tid ==> SenderOf(s'.ch, other) == SenderOf(s.ch, other)
  }

  /** A write adds one, up to the largest value an eventfd holds. */
  ghost predicate WroteOne(before: nat, after: nat) {
    after == if before < 0xffff_ffff_ffff_fffe then before + 1 else before
  }

  lemma TwoSteps<T(!new), W(!new), V(!new)>(
      beh: Behaviour<T, W>, s: Sys<T, W, V>, a: Label<T, W, V>, b: Label<T, W, V>)
    requires Enabled(s, a) && Enabled(Next(beh, s, a), b)
    ensures Valid(beh, s, [a, b]) && After(beh, s, [a, b]) == Next(beh, Next(beh, s, a), b)
  {
    OneMore(beh, Next(beh, s, a), b, []);
    OneMore(beh, s, a, [b]);
    assert [a] + [b] == [a, b];
  }

  /** `call_blocking` up to where it blocks. It can be made at any time. Its message, with a reply
      channel that no other message has and on which nothing has been sent, is the last in the
      queue, and the thread waits on that channel for that message; unless the write fails,
      which it does exactly when the counter is saturated. */
  lemma CallBlockingWaits<T(!new), W(!new), V(!new)>(
      beh: Behaviour<T, W>, s: Sys<T, W, V>, tid: nat, code: W -> Closure<T, W, V>)
    requires Wired(s) && MaySend(s, tid)
    ensures
      var ls := [Push(tid, code, true), Write(tid)];
      && Valid(beh, s, ls)
      && var s' := After(beh, s, ls);
         var at := |s.ch.pushed|;
         && OnlySender(s, s', tid) && WroteOne(s.ch.counter, s'.ch.counter)
         && |s'.ch.pushed| == at + 1 && s'.ch.pushed[..at] == s.ch.pushed
         && s'.ch.queue == s.ch.queue + [s'.ch.pushed[at]]
         && s'.ch.pushed[at].code == code && s'.ch.pushed[at].call.Some?
         && var reply := s'.ch.pushed[at].call.value;
            && reply !in s'.ch.replies && (forall k :: 0 <= k < at ==> s.ch.pushed[k].call != Some(reply))
            && SenderOf(s'.ch, tid) == if s.ch.counter < 0xffff_ffff_ffff_fffe then Waiting(reply, at) else Ready
  {
    var push: Label<T, W, V> := Push(tid, code, true);
    TwoSteps(beh, s, push, Write(tid));
    var s' := After(beh, s, [push, Write(tid)]);
    var reply := s.ch.nextCall;
    assert forall k :: 0 <= k < |s.ch.pushed| ==> s.ch.pushed[k].call != Some(reply);
    assert s'.ch.pushed[..|s.ch.pushed|] == s.ch.pushed;
  }

  /** `fire`, from any thread and at any time: its message, without a reply channel, is the last in
      the queue, the eventfd is written, and the thread goes on. */
  lemma FireQueues<T(!new), W(!new), V(!new)>(
      beh: Behaviour<T, W>, s: Sys<T, W, V>, tid: nat, code: W -> Closure<T, W, V>)
    requires MaySend(s, tid)
    ensures
      var ls := [Push(tid, code, false), Write(tid)];
      && Valid(beh, s, ls)
      && var s' := After(beh, s, ls);
         && OnlySender(s, s', tid) && WroteOne(s.ch.counter, s'.ch.counter)
         && s'.ch.pushed == s.ch.pushed + [Message(code, None)]
         && s'.ch.queue == s.ch.queue + [Message(code, None)]
         && SenderOf(s'.ch, tid).Ready?
  {
    var push: Label<T, W, V> := Push(tid, code, false);
    TwoSteps(beh, s, push, Write(tid));
  }

  /** `kick`, from any thread and at any time: the eventfd is written, and that is all. */
  lemma KickWritesOnly<T(!new), W(!new), V(!new)>(beh: Behaviour<T, W>, s: Sys<T, W, V>, tid: nat)
    requires MaySend(s, tid)
    ensures Enabled(s, Kick(tid))
    ensures
      var s' := Next(beh, s, Kick(tid));
      && OnlySender(s, s', tid) && SenderOf(s'.ch, tid).Ready?
      && s'.ch.queue == s.ch.queue && s'.ch.pushed == s.ch.pushed
      && WroteOne(s.ch.counter, s'.ch.counter) && s'.ch.counter > 0
  {
  }

  /** A blocked `call_blocking` returns once there is a reply on its channel. */
  lemma ReplyIsCollected<T(!new), W(!new), V(!new)>(beh: Behaviour<T, W>, s: Sys<T, W, V>, tid: nat)
    requires SenderOf(s.ch, tid).Waiting? && SenderOf(s.ch, tid).reply in s.ch.replies
    ensures Enabled(s, Collect(tid))
    ensures
      var s' := Next(beh, s, Collect(tid));
      && OnlySender(s, s', tid) && SenderOf(s'.ch, tid).Ready?
      && s'.ch.queue == s.ch.queue && s'.ch.pushed == s.ch.pushed && s'.ch.counter == s.ch.counter
  {
  }

  /** And not before. */
  lemma NoReplyNoReturn<T(!new), W(!new), V(!new)>(s: Sys<T, W, V>, tid: nat)
    requires Enabled(s, Collect(tid))
    ensures SenderOf(s.ch, tid).Waiting? && SenderOf(s.ch, tid).reply in s.ch.replies
  {
  }

  /** What the world outside does to descriptors and shared state. */
  lemma EffectDoes<T(!new), W(!new), V(!new)>(beh: Behaviour<T, W>, s: Sys<T, W, V>, e: Effect<W>)
    requires e.Closed? ==> e.fd != s.m.chan
    ensures Enabled(s, Env(e))
    ensures
      var s' := Next(beh, s, Env(e));
      && s'.pc == s.pc && s'.ch == s.ch
      && s'.m.subscribers == s.m.subscribers && s'.m.nextId == s.m.nextId && s'.m.chan == s.m.chan
      && s'.m.ep.dispatch == s.m.ep.dispatch && s'.m.ep.watch == s.m.ep.watch && s'.m.ep.ready == s.m.ep.ready
      && (e.Shared? ==> s'.m.world == e.w && s'.m.ep == s.m.ep)
      && (!e.Shared? ==>
            && s'.m.world == s.m.world
            && SameElsewhere(s.m.ep.kernel.interest, s'.m.ep.kernel.interest, e.fd))
      && (e.Opened? && e.fd >= 0 ==> s'.m.ep.kernel == Kernel(s.m.ep.kernel.interest, s.m.ep.kernel.open + {e.fd}))
      && (e.Closed? && e.fd in s.m.ep.kernel.open ==>
            e.fd !in s'.m.ep.kernel.interest && s'.m.ep.kernel.open == s.m.ep.kernel.open - {e.fd})
  {
    if e.Opened? && e.fd in s.m.ep.kernel.open {
      assert s.m.ep.kernel.open + {e.fd} == s.m.ep.kernel.open;
    }
  }

  // ---------- a kick wakes the loop ----------

  lemma {:induction false} ValidConcat<T(!new), W(!new), V(!new)>(
      beh: Behaviour<T, W>, s: Sys<T, W, V>, a: seq<Label<T, W, V>>, b: seq<Label<T, W, V>>)
    requires Valid(beh, s, a) && Valid(beh, After(beh, s, a), b)
    ensures Valid(beh, s, a + b) && After(beh, s, a + b) == After(beh, After(beh, s, a), b)
    decreases |a|
  {
    if a == [] {
      assert a + b == b;
    } else {
      assert (a + b)[1..] == a[1..] + b;
      ValidConcat(beh, Next(beh, s, a[0]), a[1..], b);
    }
  }

  /** The manager's way from its poll to the drain, when the channel alone is ready. */
  function WakeUp<T, W, V>(chan: RawFd): seq<Label<T, W, V>>
    requires chan >= 0
  {
    [Wait([EpollEvent(IN, chan)]), Tick, Tick, Tick]
  }

  /** Kicking an idle manager is enough for a poll to report the channel, and for the loop to drain
      the queue. That poll counts one event, and nothing is dispatched. */
  lemma KickWakes<T(!new), W(!new), V(!new)>(beh: Behaviour<T, W>, s: Sys<T, W, V>, tid: nat)
    requires Inv(s.m) && s.pc.Idle? && SenderOf(s.ch, MANAGER).Ready? && |s.m.ep.ready| > 0 && MaySend(s, tid)
    ensures
      var ls := [Kick(tid)] + WakeUp(s.m.chan);
      && Valid(beh, s, ls) && After(beh, s, ls).pc == Receiving
      && After(beh, s, ls).ch.counter == 0 && After(beh, s, ls).ch.queue == s.ch.queue
      && Calls(DispatchFrom(beh, Fill(s.m, [EpollEvent(IN, s.m.chan)]), 0, 1).1) == 0
  {
    ChannelAloneIsCounted(beh, s.m);
    KickWritesOnly(beh, s, tid);
    var s1 := Next(beh, s, Kick(tid));
    PositiveCounterWakes(beh, s1);
    OneMore(beh, s, Kick(tid), WakeUp(s.m.chan));
  }

  // ---------- a call, from one end to the other ----------

  lemma {:induction false} InitRunsThrough<T(!new), W(!new), V(!new)>(beh: Behaviour<T, W>, s: Sys<T, W, V>)
    returns (ls: seq<Label<T, W, V>>)
    requires s.pc.Initialising? && SenderOf(s.ch, MANAGER).Ready?
    requires PoliteLog(s.m.chan, Run(s.m.ep, s.pc.id, s.pc.p, s.pc.h).log)
    ensures Valid(beh, s, ls)
    ensures
      var s' := After(beh, s, ls);
      var (m1, reply) := FinishInit(s.m, s.pc.id, s.pc.p, Run(s.m.ep, s.pc.id, s.pc.p, s.pc.h));
      && s'.m == m1 && s'.ch == s.ch
      && reply.Some? && s'.pc == Executing(s.pc.who, s.pc.c, s.pc.past + [reply.value])
    decreases s.pc.p.budget - |s.pc.h|
  {
    var p, h := s.pc.p, s.pc.h;
    if !p.Stopped(h) {
      assert Run(s.m.ep, s.pc.id, p, h).log[0].op == p.Next(h);
    }
    var s1 := Next(beh, s, Tick);
    if p.Stopped(h) {
      ls := [];
    } else {
      ls := InitRunsThrough(beh, s1);
    }
    OneMore(beh, s, Tick, ls);
    ls := [Tick] + ls;
  }

  /** A closure that does not panic runs through, if nothing gets in between, and leaves what its
      whole run from there leaves; then a reply is due if it was asked for. */
  lemma {:induction false} ClosureRunsThrough<T(!new), W(!new), V(!new)>(beh: Behaviour<T, W>, s: Sys<T, W, V>)
    returns (ls: seq<Label<T, W, V>>)
    requires s.pc.Executing? && SenderOf(s.ch, MANAGER).Ready?
    requires PoliteClosure(beh, s.m, s.pc.c, s.pc.past) && RunClosure(beh, s.m, s.pc.c, s.pc.past).1.Some?
    ensures Valid(beh, s, ls)
    ensures
      var s' := After(beh, s, ls);
      var (m1, v) := RunClosure(beh, s.m, s.pc.c, s.pc.past);
      && s'.m == m1 && s'.ch == s.ch
      && s'.pc == match s.pc.who
                  case Owner => Idle
                  case Remote(msg) => if msg.call.Some? then Replying(msg.call.value, v.value) else Receiving
    decreases s.pc.c.budget - |s.pc.past|
  {
    var s1 := Next(beh, s, Tick);
    if s.pc.c.Stopped(s.pc.past) {
      ls := [];
    } else if s1.pc.Executing? {
      ls := ClosureRunsThrough(beh, s1);
    } else {
      var init := InitRunsThrough(beh, s1);
      var rest := ClosureRunsThrough(beh, After(beh, s1, init));
      ValidConcat(beh, s1, init, rest);
      ls := init + rest;
    }
    OneMore(beh, s, Tick, ls);
    ls := [Tick] + ls;
  }

  /** The owner of an idle manager can run any closure on it, and it runs through. */
  lemma OwnerCallRunsThrough<T(!new), W(!new), V(!new)>(
      beh: Behaviour<T, W>, s: Sys<T, W, V>, code: W -> Closure<T, W, V>)
    returns (ls: seq<Label<T, W, V>>)
    requires s.pc.Idle? && SenderOf(s.ch, MANAGER).Ready?
    requires PoliteClosure(beh, s.m, code(s.m.world), []) && RunClosure(beh, s.m, code(s.m.world), []).1.Some?
    ensures ls != [] && ls[0] == Call(code) && Valid(beh, s, ls)
    ensures
      var s' := After(beh, s, ls);
      s'.pc == Idle && s'.m == RunClosure(beh, s.m, code(s.m.world), []).0 && s'.ch == s.ch
  {
    var rest := ClosureRunsThrough(beh, Next(beh, s, Call(code)));
    OneMore(beh, s, Call(code), rest);
    ls := [Call(code)] + rest;
  }

  lemma {:induction false} ProcessRunsThrough<T(!new), W(!new), V(!new)>(beh: Behaviour<T, W>, s: Sys<T, W, V>)
    returns (ls: seq<Label<T, W, V>>)
    requires s.pc.Processing? && SenderOf(s.ch, MANAGER).Ready?
    requires PoliteLog(s.m.chan, Run(s.m.ep, s.pc.id, s.pc.p, s.pc.h).log)
    ensures Valid(beh, s, ls)
    ensures
      var s' := After(beh, s, ls);
      && s'.m == FinishCallback(s.m, s.pc.id, s.pc.p, s.pc.h) && s'.ch == s.ch
      && s'.pc == Dispatching(s.pc.i + 1, s.pc.n, s.pc.endpoint)
    decreases s.pc.p.budget - |s.pc.h|
  {
    var p, h := s.pc.p, s.pc.h;
    if !p.Stopped(h) {
      assert Run(s.m.ep, s.pc.id, p, h).log[0].op == p.Next(h);
    }
    var s1 := Next(beh, s, Tick);
    if p.Stopped(h) {
      ls := [];
    } else {
      ls := ProcessRunsThrough(beh, s1);
    }
    OneMore(beh, s, Tick, ls);
    ls := [Tick] + ls;
  }

  /** One entry of the batch, if nothing gets in between, is one iteration of the loop. */
  lemma EntryRunsThrough<T(!new), W(!new), V(!new)>(beh: Behaviour<T, W>, s: Sys<T, W, V>)
    returns (ls: seq<Label<T, W, V>>)
    requires s.pc.Dispatching? && s.pc.i < s.pc.n && s.pc.i < |s.m.ep.ready| && SenderOf(s.ch, MANAGER).Ready?
    requires !VisitEntry(beh, s.m, s.pc.i).1.Failed? && PoliteVisit(s.m.chan, VisitEntry(beh, s.m, s.pc.i).1)
    ensures Valid(beh, s, ls)
    ensures
      var s' := After(beh, s, ls);
      var (m1, v) := VisitEntry(beh, s.m, s.pc.i);
      && s'.m == m1 && s'.ch == s.ch
      && s'.pc == Dispatching(s.pc.i + 1, s.pc.n, if v.Deferred? then Some(v.ev) else s.pc.endpoint)
  {
    var s1 := Next(beh, s, Tick);
    if s1.pc.Processing? {
      ls := ProcessRunsThrough(beh, s1);
    } else {
      ls := [];
    }
    OneMore(beh, s, Tick, ls);
    ls := [Tick] + ls;
  }

  /** The whole of a batch, if nothing gets in between, is the dispatch loop. */
  lemma {:induction false} BatchRunsThrough<T(!new), W(!new), V(!new)>(beh: Behaviour<T, W>, s: Sys<T, W, V>)
    returns (ls: seq<Label<T, W, V>>)
    requires s.pc.Dispatching? && s.pc.i <= s.pc.n <= |s.m.ep.ready| && SenderOf(s.ch, MANAGER).Ready? && Inv(s.m)
    requires PoliteVisits(s.m.chan, DispatchFrom(beh, s.m, s.pc.i, s.pc.n).1)
    requires forall v :: v in DispatchFrom(beh, s.m, s.pc.i, s.pc.n).1 ==> !v.Failed?
    ensures Valid(beh, s, ls)
    ensures
      var s' := After(beh, s, ls);
      s'.m == DispatchFrom(beh, s.m, s.pc.i, s.pc.n).0 && s'.ch == s.ch && s'.pc.Dispatching? && s'.pc.i == s'.pc.n
    decreases s.pc.n - s.pc.i
  {
    ls := [];
    if s.pc.i < s.pc.n {
      var (m1, v) := VisitEntry(beh, s.m, s.pc.i);
      var vs := DispatchFrom(beh, s.m, s.pc.i, s.pc.n).1;
      assert vs[0] == v;
      VisitKeepsChannel(beh, s.m, s.pc.i);
      assert forall x :: x in DispatchFrom(beh, m1, s.pc.i + 1, s.pc.n).1 ==> x in vs;
      var entry := EntryRunsThrough(beh, s);
      var rest := BatchRunsThrough(beh, After(beh, s, entry));
      ValidConcat(beh, s, entry, rest);
      ls := entry + rest;
    }
  }

  lemma VisitKeepsChannel<T(!new), W(!new)>(beh: Behaviour<T, W>, m: Manager<T, W>, i: nat)
    requires Inv(m) && i < |m.ep.ready| && PoliteVisit(m.chan, VisitEntry(beh, m, i).1)
    ensures var m1 := VisitEntry(beh, m, i).0; Inv(m1) && m1.chan == m.chan
  {
    if Look(m, i).ToProcess? {
      var id := Look(m, i).id;
      RunKeeps(m.ep, m.chan, id, beh.process(m.subscribers[id], m.world, m.ep.ready[i]), [], [], 0, map[], {});
    }
  }

  /** One run of the loop, if nothing gets in between, is its poll followed by the dispatch loop. */
  lemma RunOnce<T(!new), W(!new), V(!new)>(beh: Behaviour<T, W>, s: Sys<T, W, V>, batch: seq<EpollEvent>)
    returns (ls: seq<Label<T, W, V>>)
    requires Inv(s.m) && s.pc.Idle? && SenderOf(s.ch, MANAGER).Ready? && Reportable(s, batch)
    requires PoliteVisits(s.m.chan, DispatchFrom(beh, Fill(s.m, batch), 0, |batch|).1)
    ensures ls != [] && ls[0] == Wait(batch) && Valid(beh, s, ls)
    ensures
      var s' := After(beh, s, ls);
      && s'.m == DispatchFrom(beh, Fill(s.m, batch), 0, |batch|).0
      && s'.ch == s.ch && s'.pc.Dispatching? && s'.pc.i == s'.pc.n
  {
    FilledIsPending(s.m, batch);
    DispatchFollowsBatch(beh, s.m, batch);
    var vs := DispatchFrom(beh, Fill(s.m, batch), 0, |batch|).1;
    assert forall j :: 0 <= j < |vs| ==> !vs[j].Failed?;
    var rest := BatchRunsThrough(beh, Next(beh, s, Wait(batch)));
    OneMore(beh, s, Wait(batch), rest);
    ls := [Wait(batch)] + rest;
  }

  /** From the drain with one message that waits for its reply, to that reply and back to idle. */
  lemma DrainsOneCall<T(!new), W(!new), V(!new)>(beh: Behaviour<T, W>, s: Sys<T, W, V>)
    returns (ls: seq<Label<T, W, V>>)
    requires s.pc.Receiving? && SenderOf(s.ch, MANAGER).Ready? && |s.ch.queue| == 1 && s.ch.queue[0].call.Some?
    requires
      var c := s.ch.queue[0].code(s.m.world);
      PoliteClosure(beh, s.m, c, []) && RunClosure(beh, s.m, c, []).1.Some?
    ensures Valid(beh, s, ls)
    ensures
      var s' := After(beh, s, ls);
      var (m1, v) := RunClosure(beh, s.m, s.ch.queue[0].code(s.m.world), []);
      && s'.pc == Idle && s'.m == m1
      && s'.ch == s.ch.(queue := [], replies := s.ch.replies[s.ch.queue[0].call.value := v.value])
  {
    var s1 := Next(beh, s, Tick);
    var closure := ClosureRunsThrough(beh, s1);
    var s2 := After(beh, s1, closure);
    TwoSteps(beh, s2, Tick, Tick);
    ValidConcat(beh, s1, closure, [Tick, Tick]);
    OneMore(beh, s, Tick, closure + [Tick, Tick]);
    ls := [Tick] + (closure + [Tick, Tick]);
  }

  /** `call_blocking` there and back. When nothing else goes on, the steps that the call itself and
      the loop take bring the thread its closure's result, and the manager to where the closure
      leaves it; in between nobody else need do anything. */
  lemma CallRoundTrip<T(!new), W(!new), V(!new)>(
      beh: Behaviour<T, W>, s: Sys<T, W, V>, tid: nat, code: W -> Closure<T, W, V>)
    returns (ls: seq<Label<T, W, V>>, reply: nat)
    requires Wired(s) && Inv(s.m) && s.pc.Idle? && |s.m.ep.ready| > 0 && s.ch.queue == []
    requires SenderOf(s.ch, MANAGER).Ready? && tid != MANAGER && SenderOf(s.ch, tid).Ready?
    requires s.ch.counter < 0xffff_ffff_ffff_fffe
    requires
      var m := Fill(s.m, [EpollEvent(IN, s.m.chan)]);
      PoliteClosure(beh, m, code(m.world), []) && RunClosure(beh, m, code(m.world), []).1.Some?
    ensures |ls| >= 2 && ls[0] == Push(tid, code, true) && ls[|ls| - 1] == Collect(tid)
    ensures Valid(beh, s, ls)
    ensures
      var s' := After(beh, s, ls);
      var m := Fill(s.m, [EpollEvent(IN, s.m.chan)]);
      var (m1, v) := RunClosure(beh, m, code(m.world), []);
      && s'.pc == Idle && s'.m == m1 && s'.ch.queue == [] && s'.ch.counter == 0
      && reply !in s.ch.replies && s'.ch.replies == s.ch.replies[reply := v.value]
      && forall other :: SenderOf(s'.ch, other) == SenderOf(s.ch, other)
  {
    var send: seq<Label<T, W, V>> := [Push(tid, code, true), Write(tid)];
    CallBlockingWaits(beh, s, tid, code);
    var s1 := After(beh, s, send);
    reply := s1.ch.pushed[|s.ch.pushed|].call.value;
    PositiveCounterWakes(beh, s1);
    var wake := WakeUp<T, W, V>(s.m.chan);
    var s2 := After(beh, s1, wake);
    var drain := DrainsOneCall(beh, s2);
    var s3 := After(beh, s2, drain);
    ReplyIsCollected(beh, s3, tid);
    OneMore(beh, s3, Collect(tid), []);
    ValidConcat(beh, s2, drain, [Collect(tid)]);
    ValidConcat(beh, s1, wake, drain + [Collect(tid)]);
    ValidConcat(beh, s, send, wake + (drain + [Collect(tid)]));
    ls := send + (wake + (drain + [Collect(tid)]));
  }
}
