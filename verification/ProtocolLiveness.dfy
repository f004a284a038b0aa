// What is bound to happen: in every endless run in which callbacks and closures return, the
// owner keeps polling, threads finish their sends and the kernel does not ignore a readable
// eventfd for ever, every message is handled and every call is answered.

module ProtocolLiveness {
  import opened EventData
  import opened Index
  import opened Dispatch
  import opened Closures
  import opened Protocol
  import opened ProtocolSafety
  import opened ProtocolWakeup
  import opened ProtocolHistory

  // ---------- what is asked of the world ----------

  /** Nothing happens on the loop's thread any more: it is blocked in its poll. */
  ghost predicate IdleFrom<T(!new), W(!new), V(!new)>(run: nat -> Sys<T, W, V>, i: nat) {
    forall j: nat :: j >= i ==> run(j).pc.Idle?
  }

  ghost predicate PollsAfter<T(!new), W(!new), V(!new)>(
      run: nat -> Sys<T, W, V>, act: nat -> Label<T, W, V>, i: nat) {
    exists j: nat :: j >= i && (Stuck(run(j)) || act(j).Wait? || IdleFrom(run, j))
  }

  /** The owner of the manager, unless stuck, runs the loop again and again, or is left blocked in
      a poll; it does not go on for ever with closures of its own. */
  ghost predicate OwnerPolls<T(!new), W(!new), V(!new)>(run: nat -> Sys<T, W, V>, act: nat -> Label<T, W, V>) {
    forall i: nat :: PollsAfter(run, act, i)
  }

  /** A poll that delivers the channel's event, whatever else it delivers. */
  ghost predicate Reports<T, W, V>(s: Sys<T, W, V>, l: Label<T, W, V>) {
    l.Wait? && exists k :: 0 <= k < |l.batch| && Fd(l.batch[k]) == s.m.chan
  }

  ghost predicate ReportedAfter<T(!new), W(!new), V(!new)>(
      run: nat -> Sys<T, W, V>, act: nat -> Label<T, W, V>, i: nat) {
    exists j: nat :: j >= i && (Stuck(run(j)) || run(j).ch.counter == 0 || Reports(run(j), act(j)))
  }

  /** The kernel, whatever its rotation, does not pass over a positive counter in polls without
      end, nor leave a poll blocked on it. */
  ghost predicate KernelReports<T(!new), W(!new), V(!new)>(run: nat -> Sys<T, W, V>, act: nat -> Label<T, W, V>) {
    forall i: nat :: (forall j: nat :: j >= i ==> PollsAfter(run, act, j)) ==> ReportedAfter(run, act, i)
  }

  ghost predicate WritesAfter<T(!new), W(!new), V(!new)>(act: nat -> Label<T, W, V>, tid: nat, i: nat) {
    exists j: nat :: j >= i && act(j) == Write(tid)
  }

  /** A thread that has pushed goes on to write the eventfd, successfully or not. */
  ghost predicate SendersFinish<T(!new), W(!new), V(!new)>(run: nat -> Sys<T, W, V>, act: nat -> Label<T, W, V>) {
    forall i: nat, tid: nat :: SenderOf(run(i).ch, tid).Sending? ==> WritesAfter(act, tid, i)
  }

  /** All of this together. */
  ghost predicate Lively<T(!new), W(!new), V(!new)>(run: nat -> Sys<T, W, V>, act: nat -> Label<T, W, V>) {
    KeepsGoing(run, act) && OwnerPolls(run, act) && KernelReports(run, act) && SendersFinish(run, act)
  }

  ghost predicate Live<T(!new), W(!new), V(!new)>(
      beh: Behaviour<T, W>, m0: Manager<T, W>, run: nat -> Sys<T, W, V>, act: nat -> Label<T, W, V>) {
    Endless(beh, run, act) && Lively(run, act) && Sound(run(0)) && Orderly(beh, m0, run(0))
  }

  // ---------- along an endless run ----------

  lemma {:induction false} AlwaysOrderly<T(!new), W(!new), V(!new)>(
      beh: Behaviour<T, W>, m0: Manager<T, W>, run: nat -> Sys<T, W, V>, act: nat -> Label<T, W, V>, i: nat)
    requires Live(beh, m0, run, act)
    ensures Sound(run(i)) && Orderly(beh, m0, run(i))
  {
    if i > 0 {
      AlwaysOrderly(beh, m0, run, act, i - 1);
      assert run(i - 1 + 1) == Next(beh, run(i - 1), act(i - 1));
      StepIsSound(beh, run(i - 1), act(i - 1));
      StepIsOrderly(beh, m0, run(i - 1), act(i - 1));
    }
  }

  lemma AlwaysWired<T(!new), W(!new), V(!new)>(
      beh: Behaviour<T, W>, m0: Manager<T, W>, run: nat -> Sys<T, W, V>, act: nat -> Label<T, W, V>, i: nat)
    requires Live(beh, m0, run, act)
    ensures Wired(run(i))
  {
    AlwaysOrderly(beh, m0, run, act, i);
  }

  lemma {:induction false} PushesStay<T(!new), W(!new), V(!new)>(
      beh: Behaviour<T, W>, m0: Manager<T, W>, run: nat -> Sys<T, W, V>, act: nat -> Label<T, W, V>, i: nat, j: nat)
    requires Live(beh, m0, run, act) && i <= j
    ensures run(i).ch.pushed <= run(j).ch.pushed
    decreases j - i
  {
    if i < j {
      AlwaysOrderly(beh, m0, run, act, i);
      assert run(i + 1) == Next(beh, run(i), act(i));
      StepNotes(beh, run(i), act(i));
      PushesStay(beh, m0, run, act, i + 1, j);
    }
  }

  /** The next step of the manager, if it does not get stuck before. */
  lemma NextTick<T(!new), W(!new), V(!new)>(
      beh: Behaviour<T, W>, m0: Manager<T, W>, run: nat -> Sys<T, W, V>, act: nat -> Label<T, W, V>, i: nat)
    returns (t: nat)
    requires Live(beh, m0, run, act) && !run(i).pc.Idle?
    ensures t >= i
    ensures Stuck(run(t)) ||
            (&& Enabled(run(t), Tick) && run(t + 1) == Next(beh, run(t), Tick)
             && AtSamePlace(run(i), run(t)) && run(i).ch.pushed <= run(t).ch.pushed)
  {
    assert MovesAfter(run, act, i);
    var f: nat :| f >= i && (act(f).Tick? || Stuck(run(f)));
    t := f;
    if !Stuck(run(f)) {
      AlwaysWired(beh, m0, run, act, i);
      t := UntilFirstTick(beh, run, act, i, f);
      assert Enabled(run(t), act(t)) && run(t + 1) == Next(beh, run(t), Tick);
      PushesStay(beh, m0, run, act, i, t);
    }
  }

  // ---------- a drain gets to every message ----------

  lemma DrainTickDescends<T(!new), W(!new), V(!new)>(beh: Behaviour<T, W>, s: Sys<T, W, V>, k: nat)
    requires Wired(s) && Enabled(s, Tick) && Draining(s.pc) && Handled(s) <= k < |s.ch.pushed|
    ensures
      var s1 := Next(beh, s, Tick);
      || s1.pc.Crashed? || k < Handled(s1)
      || (&& Draining(s1.pc) && s1.ch.pushed == s.ch.pushed
          && (|| Left(k + 2, |s1.past.ran|) < Left(k + 2, |s.past.ran|)
              || (s1.past.ran == s.past.ran && Stage(s1.pc) < Stage(s.pc))
              || (s1.past.ran == s.past.ran && Stage(s1.pc) == Stage(s.pc) && Substage(s1.pc) < Substage(s.pc))))
  {
    DrainStepDescends(beh, s);
  }

  lemma {:induction false} DrainHandles<T(!new), W(!new), V(!new)>(
      beh: Behaviour<T, W>, m0: Manager<T, W>, run: nat -> Sys<T, W, V>, act: nat -> Label<T, W, V>, i: nat, k: nat)
    returns (j: nat)
    requires Live(beh, m0, run, act) && Draining(run(i).pc) && k < |run(i).ch.pushed|
    ensures j >= i && (Stuck(run(j)) || k < Handled(run(j)))
    decreases Left(k + 2, |run(i).past.ran|), Stage(run(i).pc), Substage(run(i).pc)
  {
    if k < Handled(run(i)) {
      j := i;
    } else {
      var t := NextTick(beh, m0, run, act, i);
      j := t;
      if !Stuck(run(t)) {
        AlwaysWired(beh, m0, run, act, t);
        DrainTickDescends(beh, run(t), k);
        j := t + 1;
        if !run(t + 1).pc.Crashed? && k >= Handled(run(t + 1)) {
          j := DrainHandles(beh, m0, run, act, t + 1, k);
        }
      }
    }
  }

  // ---------- a report leads to the drain ----------

  ghost predicate ChannelAhead<T, W, V>(s: Sys<T, W, V>, i: nat) {
    exists k :: i <= k < |s.past.batch| && Fd(s.past.batch[k]) == s.m.chan
  }

  /** The manager is on its way to read the eventfd. */
  ghost predicate Aimed<T, W, V>(s: Sys<T, W, V>) {
    match s.pc
    case Dispatching(i, n, endpoint) => endpoint.Some? || ChannelAhead(s, i)
    case Processing(_, _, _, i, n, endpoint) => endpoint.Some? || ChannelAhead(s, i + 1)
    case Reading => true
    case _ => false
  }

  function Ahead<T, W, V>(pc: Pc<T, W, V>): nat {
    match pc
    case Dispatching(i, n, _) => 2 * Left(n, i) + 2
    case Processing(_, _, _, i, n, _) => 2 * Left(n, i) + 1
    case _ => 0
  }

  function AheadInside<T, W, V>(pc: Pc<T, W, V>): nat {
    if pc.Processing? then Left(pc.p.budget, |pc.h|) else 0
  }

  /** What a step that leaves the manager on its way achieves. */
  ghost predicate Closer<T, W, V>(s: Sys<T, W, V>, s1: Sys<T, W, V>) {
    Aimed(s1) && (Ahead(s1.pc) < Ahead(s.pc) || (Ahead(s1.pc) == Ahead(s.pc) && AheadInside(s1.pc) < AheadInside(s.pc)))
  }

  lemma DispatchingGetsCloser<T(!new), W(!new), V(!new)>(beh: Behaviour<T, W>, s: Sys<T, W, V>)
    requires Sound(s) && Aimed(s) && s.pc.Dispatching?
    ensures Closer(s, TickDispatching(beh, s))
  {
    var Dispatching(i, n, endpoint) := s.pc;
    if i < n {
      SoundBatchLooksAsPolled(s.m, s.past, i, n);
      if endpoint.None? && Fd(s.past.batch[i]) != s.m.chan {
        assert ChannelAhead(s, i + 1);
      }
    }
  }

  lemma ProcessingGetsCloser<T(!new), W(!new), V(!new)>(beh: Behaviour<T, W>, s: Sys<T, W, V>)
    requires Sound(s) && Aimed(s) && s.pc.Processing?
    ensures Closer(s, TickProcessing(s))
  {
    assert ChannelAhead(s, s.pc.i + 1) ==> ChannelAhead(TickProcessing(s), s.pc.i + 1);
  }

  lemma TickGetsCloser<T(!new), W(!new), V(!new)>(beh: Behaviour<T, W>, s: Sys<T, W, V>)
    requires Sound(s) && Aimed(s) && Enabled(s, Tick)
    ensures Draining(Next(beh, s, Tick).pc) || Closer(s, Next(beh, s, Tick))
  {
    var s1 := Next(beh, s, Tick);
    if s.pc.Dispatching? {
      DispatchingGetsCloser(beh, s);
      assert forall i :: ChannelAhead(TickDispatching(beh, s), i) ==> ChannelAhead(s1, i);
    } else if s.pc.Processing? {
      ProcessingGetsCloser(beh, s);
      assert forall i :: ChannelAhead(TickProcessing(s), i) ==> ChannelAhead(s1, i);
    }
  }

  lemma {:induction false} AimedGetsThere<T(!new), W(!new), V(!new)>(
      beh: Behaviour<T, W>, m0: Manager<T, W>, run: nat -> Sys<T, W, V>, act: nat -> Label<T, W, V>, i: nat)
    returns (j: nat)
    requires Live(beh, m0, run, act) && Aimed(run(i))
    ensures j >= i && (Stuck(run(j)) || Draining(run(j).pc))
    decreases Ahead(run(i).pc), AheadInside(run(i).pc)
  {
    var t := NextTick(beh, m0, run, act, i);
    j := t;
    if !Stuck(run(t)) {
      AlwaysOrderly(beh, m0, run, act, t);
      assert forall k :: ChannelAhead(run(i), k) ==> ChannelAhead(run(t), k);
      TickGetsCloser(beh, run(t));
      j := t + 1;
      if !Draining(run(t + 1).pc) {
        j := AimedGetsThere(beh, m0, run, act, t + 1);
      }
    }
  }

  // ---------- a positive counter leads to the drain ----------

  /** Only the manager's read lowers the counter. */
  lemma OnlyReadingClears<T(!new), W(!new), V(!new)>(beh: Behaviour<T, W>, s: Sys<T, W, V>, l: Label<T, W, V>)
    requires Enabled(s, l) && s.ch.counter > 0 && Next(beh, s, l).ch.counter == 0
    ensures Draining(Next(beh, s, l).pc)
  {
  }

  lemma {:induction false} ClearedByDrain<T(!new), W(!new), V(!new)>(
      beh: Behaviour<T, W>, run: nat -> Sys<T, W, V>, act: nat -> Label<T, W, V>, i: nat, r: nat)
    returns (j: nat)
    requires Endless(beh, run, act) && i <= r && run(i).ch.counter > 0 && run(r).ch.counter == 0
    ensures i <= j && Draining(run(j).pc)
    decreases r - i
  {
    assert run(i + 1) == Next(beh, run(i), act(i));
    if run(i + 1).ch.counter == 0 {
      OnlyReadingClears(beh, run(i), act(i));
      j := i + 1;
    } else {
      j := ClearedByDrain(beh, run, act, i + 1, r);
    }
  }

  lemma ReportIsAimed<T(!new), W(!new), V(!new)>(beh: Behaviour<T, W>, s: Sys<T, W, V>, l: Label<T, W, V>)
    requires Enabled(s, l) && Reports(s, l)
    ensures Aimed(Next(beh, s, l))
  {
    var k :| 0 <= k < |l.batch| && Fd(l.batch[k]) == s.m.chan;
    assert Next(beh, s, l).past.batch[k] == l.batch[k];
  }

  lemma CounterWakes<T(!new), W(!new), V(!new)>(
      beh: Behaviour<T, W>, m0: Manager<T, W>, run: nat -> Sys<T, W, V>, act: nat -> Label<T, W, V>, i: nat)
    returns (j: nat)
    requires Live(beh, m0, run, act) && run(i).ch.counter > 0
    ensures j >= i && (Stuck(run(j)) || Draining(run(j).pc))
  {
    assert ReportedAfter(run, act, i);
    var r: nat :| r >= i && (Stuck(run(r)) || run(r).ch.counter == 0 || Reports(run(r), act(r)));
    if Stuck(run(r)) {
      j := r;
    } else if run(r).ch.counter == 0 {
      j := ClearedByDrain(beh, run, act, i, r);
    } else {
      assert run(r + 1) == Next(beh, run(r), act(r));
      ReportIsAimed(beh, run(r), act(r));
      j := AimedGetsThere(beh, m0, run, act, r + 1);
    }
  }

  // ---------- every message, every call ----------

  lemma UnhandledIsHeard<T(!new), W(!new), V(!new)>(s: Sys<T, W, V>, k: nat)
    requires Wired(s) && Handled(s) <= k < |s.ch.pushed| && !Draining(s.pc) && !s.pc.Crashed?
    ensures s.ch.counter > 0 || SomeoneSending(s.ch)
  {
    assert s.ch.queue != [];
  }

  lemma WriteRaisesCounter<T(!new), W(!new), V(!new)>(beh: Behaviour<T, W>, s: Sys<T, W, V>, tid: nat)
    requires Enabled(s, Write(tid))
    ensures Next(beh, s, Write(tid)).ch.counter > 0
  {
  }

  lemma SendingRaisesCounter<T(!new), W(!new), V(!new)>(
      beh: Behaviour<T, W>, run: nat -> Sys<T, W, V>, act: nat -> Label<T, W, V>, i: nat)
    returns (j: nat)
    requires Endless(beh, run, act) && SendersFinish(run, act) && SomeoneSending(run(i).ch)
    ensures j >= i && run(j).ch.counter > 0
  {
    var tid :| tid in run(i).ch.senders && run(i).ch.senders[tid].Sending?;
    assert SenderOf(run(i).ch, tid).Sending?;
    assert WritesAfter(act, tid, i);
    var f: nat :| f >= i && act(f) == Write(tid);
    assert Enabled(run(f), act(f)) && run(f + 1) == Next(beh, run(f), Write(tid));
    WriteRaisesCounter(beh, run(f), tid);
    j := f + 1;
  }

  /** A message that is not handled yet leads to a drain. */
  lemma QueuedWakes<T(!new), W(!new), V(!new)>(
      beh: Behaviour<T, W>, m0: Manager<T, W>, run: nat -> Sys<T, W, V>, act: nat -> Label<T, W, V>, i: nat, k: nat)
    returns (j: nat)
    requires Live(beh, m0, run, act) && Handled(run(i)) <= k < |run(i).ch.pushed|
    ensures j >= i && (Stuck(run(j)) || Draining(run(j).pc))
  {
    if Stuck(run(i)) || Draining(run(i).pc) {
      j := i;
    } else {
      AlwaysWired(beh, m0, run, act, i);
      UnhandledIsHeard(run(i), k);
      var t := i;
      if run(i).ch.counter == 0 {
        t := SendingRaisesCounter(beh, run, act, i);
      }
      j := CounterWakes(beh, m0, run, act, t);
    }
  }

  /** Every message that is ever pushed is handled, unless the manager gets stuck: its closure is
      executed, and if it asked for a reply the reply sent is that closure's result. */
  lemma EveryMessageIsHandled<T(!new), W(!new), V(!new)>(
      beh: Behaviour<T, W>, capacity: nat, chan: RawFd, open: set<RawFd>, w: W, run: nat -> Sys<T, W, V>,
      act: nat -> Label<T, W, V>, i: nat, k: nat)
    returns (j: nat)
    requires Descriptors(chan, open) && run(0) == Start(capacity, chan, open, w)
    requires Endless(beh, run, act) && Lively(run, act)
    requires k < |run(i).ch.pushed|
    ensures j >= i && |run(j).ch.pushed| > k && run(j).ch.pushed[k] == run(i).ch.pushed[k]
    ensures Stuck(run(j)) ||
            (var s := run(j);
             var call := s.ch.pushed[k].call;
             && k < |s.past.ran| && s.past.ran[k] < |s.past.log|
             && s.past.log[s.past.ran[k]].Executed? && s.past.log[s.past.ran[k]].code == s.ch.pushed[k].code
             && (call.Some? ==>
                   && call.value in s.ch.replies
                   && AnswerAt(beh, Fresh(capacity, chan, open, w), s.past.log, s.past.ran[k]) ==
                      Some(s.ch.replies[call.value])))
  {
    var m0 := Fresh<T, W>(capacity, chan, open, w);
    StartIsSound<T, W, V>(capacity, chan, open, w);
    StartIsOrderly<T, W, V>(beh, capacity, chan, open, w);
    j := i;
    if Handled(run(i)) <= k {
      var t := QueuedWakes(beh, m0, run, act, i, k);
      PushesStay(beh, m0, run, act, i, t);
      j := t;
      if !Stuck(run(t)) {
        j := DrainHandles(beh, m0, run, act, t, k);
      }
    }
    PushesStay(beh, m0, run, act, i, j);
    AlwaysOrderly(beh, m0, run, act, j);
    if !Stuck(run(j)) {
      assert Settled(beh, m0, run(j), k);
    }
  }

  /** Every `call_blocking` whose write succeeded gets its reply, unless the manager gets stuck;
      if the caller has not taken it yet, it now can. */
  lemma EveryCallIsAnswered<T(!new), W(!new), V(!new)>(
      beh: Behaviour<T, W>, capacity: nat, chan: RawFd, open: set<RawFd>, w: W, run: nat -> Sys<T, W, V>,
      act: nat -> Label<T, W, V>, i: nat, tid: nat)
    returns (j: nat)
    requires Descriptors(chan, open) && run(0) == Start(capacity, chan, open, w)
    requires Endless(beh, run, act) && Lively(run, act)
    requires SenderOf(run(i).ch, tid).Waiting?
    ensures j >= i
    ensures Stuck(run(j)) ||
            (&& SenderOf(run(i).ch, tid).reply in run(j).ch.replies
             && (SenderOf(run(j).ch, tid) == SenderOf(run(i).ch, tid) ==> Enabled(run(j), Collect(tid))))
  {
    var m0 := Fresh<T, W>(capacity, chan, open, w);
    StartIsSound<T, W, V>(capacity, chan, open, w);
    StartIsOrderly<T, W, V>(beh, capacity, chan, open, w);
    AlwaysOrderly(beh, m0, run, act, i);
    j := EveryMessageIsHandled(beh, capacity, chan, open, w, run, act, i, SenderOf(run(i).ch, tid).at);
  }

  lemma {:induction false} SendingStays<T(!new), W(!new), V(!new)>(
      beh: Behaviour<T, W>, run: nat -> Sys<T, W, V>, act: nat -> Label<T, W, V>, i: nat, w: nat, tid: nat)
    requires Endless(beh, run, act) && i <= w && SenderOf(run(i).ch, tid).Sending?
    requires forall k: nat :: i <= k < w ==> act(k) != Write(tid)
    ensures SenderOf(run(w).ch, tid) == SenderOf(run(i).ch, tid)
    decreases w - i
  {
    if i < w {
      assert run(i + 1) == Next(beh, run(i), act(i));
      StillSending(beh, run(i), act(i), tid);
      SendingStays(beh, run, act, i + 1, w, tid);
    }
  }

  /** What a thread starts with: it has pushed `code` and is about to write the eventfd. */
  lemma PushSends<T(!new), W(!new), V(!new)>(
      beh: Behaviour<T, W>, s: Sys<T, W, V>, tid: nat, code: W -> Closure<T, W, V>)
    requires Enabled(s, Push(tid, code, true))
    ensures
      var s1 := Next(beh, s, Push(tid, code, true));
      && |s1.ch.pushed| == |s.ch.pushed| + 1 && s1.ch.pushed[|s.ch.pushed|].code == code
      && s1.ch.pushed[|s.ch.pushed|].call.Some?
      && SenderOf(s1.ch, tid) == Sending(s1.ch.pushed[|s.ch.pushed|].call, |s.ch.pushed|)
  {
  }

  lemma WriteWaits<T(!new), W(!new), V(!new)>(beh: Behaviour<T, W>, s: Sys<T, W, V>, tid: nat, call: nat, at: nat)
    requires SenderOf(s.ch, tid) == Sending(Some(call), at) && s.ch.counter < 0xffff_ffff_ffff_fffe
    ensures SenderOf(Next(beh, s, Write(tid)).ch, tid) == Waiting(call, at)
  {
  }

  lemma PushHappened<T(!new), W(!new), V(!new)>(
      beh: Behaviour<T, W>, run: nat -> Sys<T, W, V>, act: nat -> Label<T, W, V>,
      tid: nat, code: W -> Closure<T, W, V>, i: nat)
    requires Endless(beh, run, act) && act(i) == Push(tid, code, true)
    ensures
      var at := |run(i).ch.pushed|;
      && |run(i + 1).ch.pushed| == at + 1 && run(i + 1).ch.pushed[at].code == code
      && run(i + 1).ch.pushed[at].call.Some?
      && SenderOf(run(i + 1).ch, tid) == Sending(run(i + 1).ch.pushed[at].call, at)
  {
    assert Enabled(run(i), act(i)) && run(i + 1) == Next(beh, run(i), act(i));
    PushSends(beh, run(i), tid, code);
  }

  lemma WriteHappened<T(!new), W(!new), V(!new)>(
      beh: Behaviour<T, W>, run: nat -> Sys<T, W, V>, act: nat -> Label<T, W, V>, tid: nat, n: nat,
      call: nat, at: nat)
    requires Endless(beh, run, act) && act(n) == Write(tid) && run(n).ch.counter < 0xffff_ffff_ffff_fffe
    requires SenderOf(run(n).ch, tid) == Sending(Some(call), at)
    ensures SenderOf(run(n + 1).ch, tid) == Waiting(call, at)
  {
    assert Enabled(run(n), act(n)) && run(n + 1) == Next(beh, run(n), act(n));
    WriteWaits(beh, run(n), tid, call, at);
  }

  /** A thread that calls `call_blocking` with `code`, and whose write then finds the counter below
      saturation, comes to wait for the message it pushed. */
  lemma CallComesToWait<T(!new), W(!new), V(!new)>(
      beh: Behaviour<T, W>, run: nat -> Sys<T, W, V>, act: nat -> Label<T, W, V>,
      tid: nat, code: W -> Closure<T, W, V>, i: nat, n: nat)
    requires Endless(beh, run, act)
    requires act(i) == Push(tid, code, true) && i < n && act(n) == Write(tid)
    requires forall k: nat :: i < k < n ==> act(k) != Write(tid)
    requires run(n).ch.counter < 0xffff_ffff_ffff_fffe
    ensures
      var at := |run(i).ch.pushed|;
      && at < |run(i + 1).ch.pushed|
      && run(i + 1).ch.pushed[at].code == code && run(i + 1).ch.pushed[at].call.Some?
      && SenderOf(run(n + 1).ch, tid) == Waiting(run(i + 1).ch.pushed[at].call.value, at)
  {
    PushHappened(beh, run, act, tid, code, i);
    SendingStays(beh, run, act, i + 1, n, tid);
    var Sending(call, at) := SenderOf(run(i + 1).ch, tid);
    WriteHappened(beh, run, act, tid, n, call.value, at);
  }

  /** From the act of calling: in the end there is a reply for that thread, the result of the
      closure that it called with, unless the manager gets stuck. */
  lemma EveryBlockingCallReturns<T(!new), W(!new), V(!new)>(
      beh: Behaviour<T, W>, capacity: nat, chan: RawFd, open: set<RawFd>, w: W,
      run: nat -> Sys<T, W, V>, act: nat -> Label<T, W, V>, tid: nat, code: W -> Closure<T, W, V>, i: nat, n: nat)
    returns (j: nat, reply: nat)
    requires Descriptors(chan, open) && run(0) == Start(capacity, chan, open, w)
    requires Endless(beh, run, act) && Lively(run, act)
    requires act(i) == Push(tid, code, true) && i < n && act(n) == Write(tid)
    requires forall k: nat :: i < k < n ==> act(k) != Write(tid)
    requires run(n).ch.counter < 0xffff_ffff_ffff_fffe
    ensures j > n && SenderOf(run(n + 1).ch, tid) == Waiting(reply, |run(i).ch.pushed|)
    ensures Stuck(run(j)) ||
            (var s := run(j);
             var at := |run(i).ch.pushed|;
             && reply in s.ch.replies
             && at < |s.past.ran| && s.past.ran[at] < |s.past.log|
             && s.past.log[s.past.ran[at]].Executed? && s.past.log[s.past.ran[at]].code == code
             && AnswerAt(beh, Fresh(capacity, chan, open, w), s.past.log, s.past.ran[at])
                == Some(s.ch.replies[reply]))
  {
    var m0 := Fresh<T, W>(capacity, chan, open, w);
    StartIsSound<T, W, V>(capacity, chan, open, w);
    StartIsOrderly<T, W, V>(beh, capacity, chan, open, w);
    var at := |run(i).ch.pushed|;
    CallComesToWait(beh, run, act, tid, code, i, n);
    reply := run(i + 1).ch.pushed[at].call.value;
    PushesStay(beh, m0, run, act, i + 1, n + 1);
    j := EveryMessageIsHandled(beh, capacity, chan, open, w, run, act, n + 1, at);
  }

  // ---------- such runs exist ----------

  /** Nothing is to be done: the loop polls and finds nothing, over and over. */
  ghost predicate AtRest<T(!new), W(!new), V(!new)>(s: Sys<T, W, V>) {
    && (s.pc.Idle? || s.pc == Dispatching(0, 0, None)) && s.ch.counter == 0
    && SenderOf(s.ch, MANAGER).Ready? && !SomeoneSending(s.ch)
  }

  function Resting<T, W, V>(s: Sys<T, W, V>): Label<T, W, V> {
    if s.pc.Idle? then Wait([]) else Tick
  }

  lemma RestGoesOn<T(!new), W(!new), V(!new)>(beh: Behaviour<T, W>, s: Sys<T, W, V>)
    requires AtRest(s)
    ensures Enabled(s, Resting(s)) && AtRest(Next(beh, s, Resting(s)))
    ensures Resting(s).Tick? || Resting(Next(beh, s, Resting(s))).Tick?
    ensures Resting(s).Wait? || Resting(Next(beh, s, Resting(s))).Wait?
  {
  }

  /** A finite run that comes to rest. */
  ghost predicate ComesToRest<T(!new), W(!new), V(!new)>(
      beh: Behaviour<T, W>, s: Sys<T, W, V>, ls: seq<Label<T, W, V>>) {
    Valid(beh, s, ls) && AtRest(After(beh, s, ls))
  }

  /** The `i`-th state of the run that does `ls` and then rests for ever. */
  ghost function StateAt<T(!new), W(!new), V(!new)>(
      beh: Behaviour<T, W>, s: Sys<T, W, V>, ls: seq<Label<T, W, V>>, i: nat): Sys<T, W, V>
    requires ComesToRest(beh, s, ls)
    decreases i
  {
    if i == 0 then s
    else if ls != [] then StateAt(beh, Next(beh, s, ls[0]), ls[1..], i - 1)
    else
      RestGoesOn(beh, s);
      StateAt(beh, Next(beh, s, Resting(s)), [], i - 1)
  }

  ghost function LabelAt<T(!new), W(!new), V(!new)>(
      beh: Behaviour<T, W>, s: Sys<T, W, V>, ls: seq<Label<T, W, V>>, i: nat): Label<T, W, V>
    requires ComesToRest(beh, s, ls)
  {
    if i < |ls| then ls[i] else Resting(StateAt(beh, s, ls, i))
  }

  lemma {:induction false} StatesFollow<T(!new), W(!new), V(!new)>(
      beh: Behaviour<T, W>, s: Sys<T, W, V>, ls: seq<Label<T, W, V>>, i: nat)
    requires ComesToRest(beh, s, ls)
    ensures Enabled(StateAt(beh, s, ls, i), LabelAt(beh, s, ls, i))
    ensures StateAt(beh, s, ls, i + 1) == Next(beh, StateAt(beh, s, ls, i), LabelAt(beh, s, ls, i))
    ensures i >= |ls| ==> AtRest(StateAt(beh, s, ls, i))
    ensures i == |ls| ==> StateAt(beh, s, ls, i) == After(beh, s, ls)
    decreases i
  {
    if ls == [] {
      RestGoesOn(beh, s);
    }
    if i > 0 {
      StatesFollow(beh, if ls != [] then Next(beh, s, ls[0]) else Next(beh, s, Resting(s)),
                   if ls != [] then ls[1..] else [], i - 1);
    } else if ls != [] {
      assert StateAt(beh, s, ls, 1) == StateAt(beh, Next(beh, s, ls[0]), ls[1..], 0);
    } else {
      assert StateAt(beh, s, ls, 1) == StateAt(beh, Next(beh, s, Resting(s)), [], 0);
    }
  }

  lemma {:induction false} SendingEnds<T(!new), W(!new), V(!new)>(
      beh: Behaviour<T, W>, s: Sys<T, W, V>, ls: seq<Label<T, W, V>>, i: nat, tid: nat)
    returns (j: nat)
    requires ComesToRest(beh, s, ls) && SenderOf(StateAt(beh, s, ls, i).ch, tid).Sending?
    ensures j >= i && LabelAt(beh, s, ls, j) == Write(tid)
    decreases Left(|ls|, i)
  {
    StatesFollow(beh, s, ls, i);
    if LabelAt(beh, s, ls, i) == Write(tid) {
      j := i;
    } else {
      StillSending(beh, StateAt(beh, s, ls, i), LabelAt(beh, s, ls, i), tid);
      j := SendingEnds(beh, s, ls, i + 1, tid);
    }
  }

  lemma StillSending<T(!new), W(!new), V(!new)>(beh: Behaviour<T, W>, s: Sys<T, W, V>, l: Label<T, W, V>, tid: nat)
    requires Enabled(s, l) && SenderOf(s.ch, tid).Sending? && l != Write(tid)
    ensures SenderOf(Next(beh, s, l).ch, tid).Sending?
  {
  }

  lemma RestsAfter<T(!new), W(!new), V(!new)>(
      beh: Behaviour<T, W>, s: Sys<T, W, V>, ls: seq<Label<T, W, V>>, i: nat)
    returns (j: nat)
    requires ComesToRest(beh, s, ls)
    ensures j >= i && StateAt(beh, s, ls, j).ch.counter == 0
    ensures LabelAt(beh, s, ls, j).Tick? || LabelAt(beh, s, ls, j + 1).Tick?
    ensures LabelAt(beh, s, ls, j).Wait? || LabelAt(beh, s, ls, j + 1).Wait?
  {
    j := if i < |ls| then |ls| else i;
    StatesFollow(beh, s, ls, j);
    RestGoesOn(beh, StateAt(beh, s, ls, j));
  }

  /** What is asked of endless runs is not too much: every finite run that comes to rest, with
      whatever happened in it, goes on as one of them. */
  lemma EveryRestingRunGoesOn<T(!new), W(!new), V(!new)>(beh: Behaviour<T, W>, s: Sys<T, W, V>, ls: seq<Label<T, W, V>>)
    returns (run: nat -> Sys<T, W, V>, act: nat -> Label<T, W, V>)
    requires ComesToRest(beh, s, ls)
    ensures Endless(beh, run, act) && Lively(run, act)
    ensures run(0) == s && run(|ls|) == After(beh, s, ls) && forall i :: 0 <= i < |ls| ==> act(i) == ls[i]
  {
    run := (i: nat) => StateAt(beh, s, ls, i);
    act := (i: nat) => LabelAt(beh, s, ls, i);
    StatesFollow(beh, s, ls, |ls|);
    forall i: nat ensures Enabled(run(i), act(i)) && run(i + 1) == Next(beh, run(i), act(i)) {
      StatesFollow(beh, s, ls, i);
    }
    forall i: nat ensures MovesAfter(run, act, i) && PollsAfter(run, act, i) && ReportedAfter(run, act, i) {
      var j := RestsAfter(beh, s, ls, i);
      assert act(j).Tick? || act(j + 1).Tick?;
      assert act(j).Wait? || act(j + 1).Wait?;
      assert run(j).ch.counter == 0;
    }
    forall i: nat, tid: nat | SenderOf(run(i).ch, tid).Sending? ensures WritesAfter(act, tid, i) {
      var j := SendingEnds(beh, s, ls, i, tid);
      assert act(j) == Write(tid);
    }
  }
}
