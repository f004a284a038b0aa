// The wake-up protocol: no message is ever left behind with nobody bound to look for it,
// draining ends, and a call from the loop's own thread never returns.

module ProtocolWakeup {
  import opened EventData
  import opened Index
  import opened Dispatch
  import opened Closures
  import opened Protocol

  // ---------- the invariant ----------

  ghost predicate SomeoneSending<T, W, V>(ch: Channel<T, W, V>) {
    exists tid :: tid in ch.senders && ch.senders[tid].Sending?
  }

  /** A queued message is bound to be seen: the eventfd is readable, or a thread is about
      to write it, or the manager has not yet found the queue empty. */
  ghost predicate Heard<T, W, V>(s: Sys<T, W, V>) {
    s.ch.queue != [] ==> s.ch.counter > 0 || SomeoneSending(s.ch) || Draining(s.pc) || s.pc.Crashed?
  }

  /** Messages are received in the order in which they were pushed, none dropped. */
  ghost predicate Fifo<T, W, V>(s: Sys<T, W, V>) {
    |s.past.ran| <= |s.ch.pushed| && s.ch.queue == s.ch.pushed[|s.past.ran|..]
  }

  /** A thread inside `send` or waiting on a reply channel has pushed its own message. */
  ghost predicate Placed<T, W, V>(ch: Channel<T, W, V>) {
    forall tid :: tid in ch.senders ==>
      match ch.senders[tid]
      case Ready => true
      case Sending(call, at) => at < |ch.pushed| && ch.pushed[at].call == call
      case Waiting(reply, at) => at < |ch.pushed| && ch.pushed[at].call == Some(reply)
  }

  /** Every call has its own reply channel. */
  ghost predicate CallsDistinct<T, W, V>(ch: Channel<T, W, V>) {
    && (forall k :: 0 <= k < |ch.pushed| && ch.pushed[k].call.Some? ==> ch.pushed[k].call.value < ch.nextCall)
    && (forall j, k :: 0 <= j < k < |ch.pushed| && ch.pushed[j].call.Some? ==> ch.pushed[j].call != ch.pushed[k].call)
  }

  /** The message being handled is the last one received. */
  ghost predicate Current<T, W, V>(s: Sys<T, W, V>) {
    var last := |s.past.ran| - 1;
    match s.pc
    case Executing(Remote(msg), _, _) => 0 <= last < |s.ch.pushed| && s.ch.pushed[last] == msg
    case Initialising(Remote(msg), _, _, _, _, _) => 0 <= last < |s.ch.pushed| && s.ch.pushed[last] == msg
    case Crashed(_, true) => 0 <= last < |s.ch.pushed|
    case Replying(call, _) => 0 <= last < |s.ch.pushed| && s.ch.pushed[last].call == Some(call)
    case _ => true
  }

  /** How many messages have been received and dealt with. */
  function Handled<T, W, V>(s: Sys<T, W, V>): nat {
    if Busy(s.pc) && |s.past.ran| > 0 then |s.past.ran| - 1 else |s.past.ran|
  }

  /** Replies exist only for calls whose message has been dealt with; in particular there
      is none for `fire`, and `kick` has no message at all. */
  ghost predicate RepliesForReceived<T, W, V>(s: Sys<T, W, V>) {
    forall call :: call in s.ch.replies ==>
      exists k :: 0 <= k < Handled(s) <= |s.ch.pushed| && s.ch.pushed[k].call == Some(call)
  }

  /** A message sent from the loop's own thread is not received while that thread is still
      in `send`, or waits: it would have to receive it itself. */
  ghost predicate OwnMessageQueued<T, W, V>(s: Sys<T, W, V>) {
    match SenderOf(s.ch, MANAGER)
    case Ready => true
    case Sending(_, at) => InUserCode(s.pc) && at >= |s.past.ran|
    case Waiting(_, at) => InUserCode(s.pc) && at >= |s.past.ran|
  }

  /** While an `init` runs, the request that started it still counts. */
  ghost predicate InitCounted<T, W, V>(pc: Pc<T, W, V>) {
    pc.Initialising? ==> |pc.past| < pc.c.budget
  }

  ghost predicate Wired<T, W, V>(s: Sys<T, W, V>) {
    && s.ch.counter <= EVENTFD_MAX
    && OwnMessageQueued(s)
    && Heard(s) && Fifo(s) && Placed(s.ch) && CallsDistinct(s.ch)
    && Current(s) && RepliesForReceived(s) && InitCounted(s.pc)
  }

  lemma StartIsWired<T(!new), W(!new), V(!new)>(capacity: nat, chan: RawFd, open: set<RawFd>, w: W)
    requires chan >= 0
    ensures Wired(Start<T, W, V>(capacity, chan, open, w))
  {
  }

  // ---------- one step ----------

  lemma PushKeepsCalls<T(!new), W(!new), V(!new)>(
      ch: Channel<T, W, V>, tid: nat, code: W -> Closure<T, W, V>, blocking: bool)
    requires Placed(ch) && CallsDistinct(ch)
    ensures Placed(PushMessage(ch, tid, code, blocking)) && CallsDistinct(PushMessage(ch, tid, code, blocking))
  {
  }

  lemma PushKeepsReplies<T(!new), W(!new), V(!new)>(s: Sys<T, W, V>, ch: Channel<T, W, V>)
    requires RepliesForReceived(s) && ch.replies == s.ch.replies
    requires s.ch.pushed <= ch.pushed
    ensures RepliesForReceived(s.(ch := ch))
  {
    forall call | call in ch.replies
      ensures exists k :: 0 <= k < Handled(s) <= |ch.pushed| && ch.pushed[k].call == Some(call)
    {
      var k :| 0 <= k < Handled(s) <= |s.ch.pushed| && s.ch.pushed[k].call == Some(call);
      assert ch.pushed[k] == s.ch.pushed[k];
    }
  }

  lemma PushKeepsOrder<T(!new), W(!new), V(!new)>(
      s: Sys<T, W, V>, tid: nat, code: W -> Closure<T, W, V>, blocking: bool)
    requires Fifo(s)
    ensures Fifo(s.(ch := PushMessage(s.ch, tid, code, blocking)))
  {
    var ch := PushMessage(s.ch, tid, code, blocking);
    assert ch.pushed[|s.past.ran|..] == s.ch.pushed[|s.past.ran|..] + [ch.pushed[|s.ch.pushed|]];
  }

  /** Steps of a thread inside `RemoteEndpoint` change the channel alone. */
  ghost predicate WiredButOrder<T, W, V>(s: Sys<T, W, V>, ch: Channel<T, W, V>) {
    && ch.counter <= EVENTFD_MAX
    && OwnMessageQueued(s.(ch := ch)) && Heard(s.(ch := ch)) && Placed(ch) && CallsDistinct(ch)
  }

  lemma WiredAgain<T(!new), W(!new), V(!new)>(s: Sys<T, W, V>, ch: Channel<T, W, V>)
    requires Wired(s) && WiredButOrder(s, ch) && Fifo(s.(ch := ch)) && ch.replies == s.ch.replies
    requires s.ch.pushed <= ch.pushed
    ensures Wired(s.(ch := ch))
  {
    PushKeepsReplies(s, ch);
  }

  lemma PushIsWired<T(!new), W(!new), V(!new)>(s: Sys<T, W, V>, tid: nat, code: W -> Closure<T, W, V>, blocking: bool)
    requires Wired(s) && SenderOf(s.ch, tid).Ready? && (tid == MANAGER ==> InUserCode(s.pc))
    ensures Wired(s.(ch := PushMessage(s.ch, tid, code, blocking)))
  {
    var ch := PushMessage(s.ch, tid, code, blocking);
    PushKeepsCalls(s.ch, tid, code, blocking);
    PushKeepsOrder(s, tid, code, blocking);
    assert Heard(s.(ch := ch)) by {
      assert tid in ch.senders && ch.senders[tid].Sending?;
    }
    WiredAgain(s, ch);
  }

  lemma WriteIsWired<T(!new), W(!new), V(!new)>(s: Sys<T, W, V>, tid: nat)
    requires Wired(s) && SenderOf(s.ch, tid).Sending?
    ensures Wired(s.(ch := WriteEvent(s.ch, tid)))
  {
    assert WriteEvent(s.ch, tid).counter > 0;
    WiredAgain(s, WriteEvent(s.ch, tid));
  }

  lemma KickIsWired<T(!new), W(!new), V(!new)>(s: Sys<T, W, V>)
    requires Wired(s)
    ensures Wired(s.(ch := s.ch.(counter := Bump(s.ch.counter).0)))
  {
    WiredAgain(s, s.ch.(counter := Bump(s.ch.counter).0));
  }

  lemma CollectKeepsSending<T, W, V>(ch: Channel<T, W, V>, tid: nat)
    requires !SenderOf(ch, tid).Sending? && SomeoneSending(ch)
    ensures SomeoneSending(ch.(senders := ch.senders[tid := Ready]))
  {
    var other :| other in ch.senders && ch.senders[other].Sending?;
    assert ch.senders[tid := Ready][other].Sending?;
  }

  lemma CollectIsWired<T(!new), W(!new), V(!new)>(s: Sys<T, W, V>, tid: nat)
    requires Wired(s) && SenderOf(s.ch, tid).Waiting?
    ensures Wired(s.(ch := s.ch.(senders := s.ch.senders[tid := Ready])))
  {
    var ch := s.ch.(senders := s.ch.senders[tid := Ready]);
    if SomeoneSending(s.ch) {
      CollectKeepsSending(s.ch, tid);
    }
    WiredAgain(s, ch);
  }

  /** Only three of the manager's steps touch the channel. */
  lemma OtherTicksLeaveChannel<T(!new), W(!new), V(!new)>(beh: Behaviour<T, W>, s: Sys<T, W, V>)
    requires Enabled(s, Tick) && !s.pc.Reading? && !s.pc.Receiving? && !s.pc.Replying?
    ensures
      var s1 := Next(beh, s, Tick);
      && s1.ch == s.ch && s1.past.ran == s.past.ran
      && (Draining(s.pc) ==> Draining(s1.pc) || s1.pc.Crashed?)
      && Handled(s1) >= Handled(s)
      && (Current(s) ==> Current(s1)) && (InitCounted(s.pc) ==> InitCounted(s1.pc))
  {
  }

  lemma ReceivingIsWired<T(!new), W(!new), V(!new)>(beh: Behaviour<T, W>, s: Sys<T, W, V>)
    requires Wired(s) && Enabled(s, Tick) && s.pc.Receiving?
    ensures Wired(TickReceiving(s))
  {
    if s.ch.queue != [] {
      var s1 := TickReceiving(s);
      assert s.ch.pushed[|s.past.ran|] == s.ch.queue[0];
      assert s1.ch.queue == s1.ch.pushed[|s1.past.ran|..];
      assert Handled(s1) == Handled(s);
    }
  }

  lemma ReplyingIsWired<T(!new), W(!new), V(!new)>(beh: Behaviour<T, W>, s: Sys<T, W, V>)
    requires Wired(s) && Enabled(s, Tick) && s.pc.Replying?
    ensures Wired(Next(beh, s, Tick))
  {
    assert s.ch.pushed[|s.past.ran| - 1].call == Some(s.pc.call);
  }

  lemma TickIsWired<T(!new), W(!new), V(!new)>(beh: Behaviour<T, W>, s: Sys<T, W, V>)
    requires Wired(s) && Enabled(s, Tick)
    ensures Wired(Next(beh, s, Tick))
  {
    if s.pc.Receiving? {
      ReceivingIsWired(beh, s);
    } else if s.pc.Replying? {
      ReplyingIsWired(beh, s);
    } else if !s.pc.Reading? {
      OtherTicksLeaveChannel(beh, s);
    }
  }

  lemma StepIsWired<T(!new), W(!new), V(!new)>(beh: Behaviour<T, W>, s: Sys<T, W, V>, l: Label<T, W, V>)
    requires Wired(s) && Enabled(s, l)
    ensures Wired(Next(beh, s, l))
  {
    match l {
      case Push(tid, code, blocking) => PushIsWired(s, tid, code, blocking);
      case Write(tid) => WriteIsWired(s, tid);
      case Kick(_) => KickIsWired(s);
      case Collect(tid) => CollectIsWired(s, tid);
      case Tick => TickIsWired(beh, s);
      case _ =>
    }
  }

  lemma {:induction false} RunIsWired<T(!new), W(!new), V(!new)>(
      beh: Behaviour<T, W>, s: Sys<T, W, V>, ls: seq<Label<T, W, V>>)
    requires Wired(s) && Valid(beh, s, ls)
    ensures Wired(After(beh, s, ls))
    decreases |ls|
  {
    if ls != [] {
      StepIsWired(beh, s, ls[0]);
      RunIsWired(beh, Next(beh, s, ls[0]), ls[1..]);
    }
  }

  // ---------- no lost wake-up ----------

  /** In every reachable interleaving of any number of threads, including those in which
      eventfd writes fail because the counter is saturated: while a message is queued, the
      counter is positive, or some thread is between its push and its write, or the manager
      is between its read and the `try_recv` that finds the queue empty. */
  lemma NoLostWakeup<T(!new), W(!new), V(!new)>(
      beh: Behaviour<T, W>, capacity: nat, chan: RawFd, open: set<RawFd>, w: W, ls: seq<Label<T, W, V>>)
    requires Descriptors(chan, open) && Valid(beh, Start(capacity, chan, open, w), ls)
    ensures
      var s := After(beh, Start(capacity, chan, open, w), ls);
      s.ch.queue != [] && !s.pc.Crashed? ==>
        s.ch.counter > 0 || (exists tid :: tid in s.ch.senders && s.ch.senders[tid].Sending?) || Draining(s.pc)
  {
    StartIsWired<T, W, V>(capacity, chan, open, w);
    RunIsWired(beh, Start(capacity, chan, open, w), ls);
  }

  /** Replies are sent only for `call_blocking`, and only once its message has been dealt
      with; never for `fire`. */
  lemma RepliesOnlyToCalls<T(!new), W(!new), V(!new)>(
      beh: Behaviour<T, W>, capacity: nat, chan: RawFd, open: set<RawFd>, w: W, ls: seq<Label<T, W, V>>, call: nat)
    requires Descriptors(chan, open) && Valid(beh, Start(capacity, chan, open, w), ls)
    requires call in After(beh, Start(capacity, chan, open, w), ls).ch.replies
    ensures
      var s := After(beh, Start(capacity, chan, open, w), ls);
      && Handled(s) <= |s.ch.pushed|
      && (exists k :: 0 <= k < Handled(s) && s.ch.pushed[k].call == Some(call))
      && (forall j, k :: 0 <= j < k < |s.ch.pushed| ==> !(s.ch.pushed[j].call == s.ch.pushed[k].call == Some(call)))
  {
    StartIsWired<T, W, V>(capacity, chan, open, w);
    RunIsWired(beh, Start(capacity, chan, open, w), ls);
  }

  lemma OneMore<T(!new), W(!new), V(!new)>(
      beh: Behaviour<T, W>, s: Sys<T, W, V>, l: Label<T, W, V>, ls: seq<Label<T, W, V>>)
    requires Enabled(s, l) && Valid(beh, Next(beh, s, l), ls)
    ensures Valid(beh, s, [l] + ls) && After(beh, s, [l] + ls) == After(beh, Next(beh, s, l), ls)
  {
    assert ([l] + ls)[1..] == ls;
  }

  /** And a positive counter does wake the loop: polling the channel alone is possible, and
      leads by the manager's own steps to the drain. */
  lemma PositiveCounterWakes<T(!new), W(!new), V(!new)>(beh: Behaviour<T, W>, s: Sys<T, W, V>)
    requires Inv(s.m) && s.pc.Idle? && SenderOf(s.ch, MANAGER).Ready? && s.ch.counter > 0 && |s.m.ep.ready| > 0
    ensures
      var ls := [Wait([EpollEvent(IN, s.m.chan)]), Tick, Tick, Tick];
      && Valid(beh, s, ls)
      && After(beh, s, ls).pc == Receiving && After(beh, s, ls).ch == s.ch.(counter := 0)
      && After(beh, s, ls).m == Fill(s.m, [EpollEvent(IN, s.m.chan)])
  {
    var wait: Label<T, W, V> := Wait([EpollEvent(IN, s.m.chan)]);
    assert Fd(EpollEvent(IN, s.m.chan)) == s.m.chan;
    var s1 := Next(beh, s, wait);
    assert s1.m.ep.ready[0] == EpollEvent(IN, s.m.chan);
    var s2 := Next(beh, s1, Tick);
    var s3 := Next(beh, s2, Tick);
    var s4 := Next(beh, s3, Tick);
    OneMore(beh, s3, Tick, []);
    OneMore(beh, s2, Tick, [Tick]);
    OneMore(beh, s1, Tick, [Tick, Tick]);
    OneMore(beh, s, wait, [Tick, Tick, Tick]);
    assert [wait] + [Tick, Tick, Tick] == [wait, Tick, Tick, Tick];
  }

  // ---------- a call from the loop's own thread ----------

  /** Once the loop's thread waits on its own channel, no continuation of the run, by any
      other threads, answers that call or moves the manager. */
  lemma {:induction false} SelfCallNeverReturns<T(!new), W(!new), V(!new)>(
      beh: Behaviour<T, W>, s: Sys<T, W, V>, ls: seq<Label<T, W, V>>)
    requires Wired(s) && Valid(beh, s, ls) && SenderOf(s.ch, MANAGER).Waiting?
    ensures
      var s' := After(beh, s, ls);
      && SenderOf(s'.ch, MANAGER) == SenderOf(s.ch, MANAGER)
      && SenderOf(s.ch, MANAGER).reply !in s'.ch.replies
      && s'.pc == s.pc && s'.past.ran == s.past.ran && s'.ch.replies == s.ch.replies
    decreases |ls|
  {
    if ls != [] {
      StepIsWired(beh, s, ls[0]);
      SelfCallNeverReturns(beh, Next(beh, s, ls[0]), ls[1..]);
    }
  }

  /** `fire` from the same place does return: both its steps are enabled and the code that
      called it goes on, with its message queued. */
  lemma FireFromLoopReturns<T(!new), W(!new), V(!new)>(
      beh: Behaviour<T, W>, s: Sys<T, W, V>, code: W -> Closure<T, W, V>)
    requires InUserCode(s.pc) && SenderOf(s.ch, MANAGER).Ready?
    ensures
      var ls := [Push(MANAGER, code, false), Write(MANAGER)];
      && Valid(beh, s, ls)
      && var s' := After(beh, s, ls);
         && s'.pc == s.pc && s'.m == s.m && SenderOf(s'.ch, MANAGER).Ready?
         && s'.ch.queue == s.ch.queue + [Message(code, None)]
         && s'.ch.replies == s.ch.replies
  {
    var push: Label<T, W, V> := Push(MANAGER, code, false);
    var s1 := Next(beh, s, push);
    OneMore(beh, s1, Write(MANAGER), []);
    OneMore(beh, s, push, [Write(MANAGER)]);
    assert [push] + [Write(MANAGER)] == [push, Write(MANAGER)];
  }

  // ---------- draining ends ----------

  /** An endless run. */
  ghost predicate Endless<T(!new), W(!new), V(!new)>(
      beh: Behaviour<T, W>, run: nat -> Sys<T, W, V>, act: nat -> Label<T, W, V>) {
    forall i: nat :: Enabled(run(i), act(i)) && run(i + 1) == Next(beh, run(i), act(i))
  }

  /** The manager's thread has panicked, or waits on its own channel. */
  ghost predicate Stuck<T, W, V>(s: Sys<T, W, V>) {
    s.pc.Crashed? || SenderOf(s.ch, MANAGER).Waiting?
  }

  ghost predicate MovesAfter<T(!new), W(!new), V(!new)>(
      run: nat -> Sys<T, W, V>, act: nat -> Label<T, W, V>, i: nat) {
    exists j: nat :: j >= i && (act(j).Tick? || Stuck(run(j)))
  }

  /** What the manager has begun it goes on with: callbacks and closures return, unless they
      panic or call their own loop. Between two runs of the loop it may do nothing at all. */
  ghost predicate KeepsGoing<T(!new), W(!new), V(!new)>(run: nat -> Sys<T, W, V>, act: nat -> Label<T, W, V>) {
    forall i: nat :: run(i).pc.Idle? || MovesAfter(run, act, i)
  }

  /** All threads together push at most `budget` messages. */
  ghost predicate PushesAtMost<T(!new), W(!new), V(!new)>(run: nat -> Sys<T, W, V>, budget: nat) {
    forall i: nat :: |run(i).ch.pushed| <= budget
  }

  function Left(budget: nat, used: nat): nat {
    if used < budget then budget - used else 0
  }

  /** How much of the message being handled is left. */
  function Stage<T, W, V>(pc: Pc<T, W, V>): nat {
    match pc
    case Executing(_, c, past) => 2 * Left(c.budget, |past|) + 3
    case Initialising(_, c, past, _, _, _) => 2 * Left(c.budget, |past|) + 2
    case Replying(_, _) => 1
    case _ => 0
  }

  function Substage<T, W, V>(pc: Pc<T, W, V>): nat {
    if pc.Initialising? then Left(pc.p.budget, |pc.h|) else 0
  }

  /** Each step of the manager in the drain leaves it with the queue empty and everything
      ever pushed received, or panics on id overflow, or makes the measure smaller. */
  lemma DrainStepDescends<T(!new), W(!new), V(!new)>(beh: Behaviour<T, W>, s: Sys<T, W, V>)
    requires Wired(s) && Enabled(s, Tick) && Draining(s.pc)
    ensures
      var s1 := Next(beh, s, Tick);
      && s1.ch.pushed == s.ch.pushed
      && (if s1.pc.Idle? then s.ch.queue == [] && |s.past.ran| == |s.ch.pushed| && s1.past.ran == s.past.ran
          else if s1.pc.Crashed? then true
          else
            && Draining(s1.pc)
            && |s1.past.ran| <= |s.ch.pushed|
            && (|s1.past.ran| > |s.past.ran|
                || (s1.past.ran == s.past.ran && Stage(s1.pc) < Stage(s.pc))
                || (s1.past.ran == s.past.ran && Stage(s1.pc) == Stage(s.pc) && Substage(s1.pc) < Substage(s.pc))))
  {
  }

  /** While the manager is at work, only its own steps move it. */
  lemma OtherStepsLeaveManager<T(!new), W(!new), V(!new)>(beh: Behaviour<T, W>, s: Sys<T, W, V>, l: Label<T, W, V>)
    requires Enabled(s, l) && !l.Tick? && !s.pc.Idle?
    ensures AtSamePlace(s, Next(beh, s, l))
  {
  }

  ghost predicate AtSamePlace<T, W, V>(s: Sys<T, W, V>, s1: Sys<T, W, V>) {
    s1.pc == s.pc && s1.past.ran == s.past.ran && s1.past.batch == s.past.batch && s1.m.chan == s.m.chan
  }

  lemma {:induction false} UntilFirstTick<T(!new), W(!new), V(!new)>(
      beh: Behaviour<T, W>, run: nat -> Sys<T, W, V>, act: nat -> Label<T, W, V>, i: nat, j: nat)
    returns (t: nat)
    requires Endless(beh, run, act) && i <= j && act(j).Tick? && !run(i).pc.Idle? && Wired(run(i))
    ensures i <= t && act(t).Tick? && AtSamePlace(run(i), run(t)) && Wired(run(t))
    decreases j - i
  {
    if act(i).Tick? {
      t := i;
    } else {
      assert run(i + 1) == Next(beh, run(i), act(i));
      OtherStepsLeaveManager(beh, run(i), act(i));
      StepIsWired(beh, run(i), act(i));
      t := UntilFirstTick(beh, run, act, i + 1, j);
    }
  }

  /** If all threads, closures included, push only finitely many messages, the `try_recv`
      loop ends, with the queue empty and every message ever pushed received, unless a closure
      panics or calls its own loop. */
  lemma {:induction false} DrainEnds<T(!new), W(!new), V(!new)>(
      beh: Behaviour<T, W>, run: nat -> Sys<T, W, V>, act: nat -> Label<T, W, V>, i: nat, budget: nat)
    returns (j: nat)
    requires Endless(beh, run, act) && KeepsGoing(run, act) && PushesAtMost(run, budget)
    requires Wired(run(i)) && Draining(run(i).pc)
    ensures j >= i
    ensures Stuck(run(j)) || (run(j).pc.Idle? && run(j).ch.queue == [] && |run(j).past.ran| == |run(j).ch.pushed|)
    decreases budget - |run(i).past.ran|, Stage(run(i).pc), Substage(run(i).pc)
  {
    assert MovesAfter(run, act, i);
    var f: nat :| f >= i && (act(f).Tick? || Stuck(run(f)));
    if Stuck(run(f)) {
      j := f;
    } else {
      var t := UntilFirstTick(beh, run, act, i, f);
      assert Enabled(run(t), act(t)) && run(t + 1) == Next(beh, run(t), Tick);
      assert |run(t).ch.pushed| <= budget;
      DrainStepDescends(beh, run(t));
      TickIsWired(beh, run(t));
      if run(t + 1).pc.Idle? || run(t + 1).pc.Crashed? {
        j := t + 1;
      } else {
        j := DrainEnds(beh, run, act, t + 1, budget);
      }
    }
  }
}
