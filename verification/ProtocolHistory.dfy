// Concurrency does not show: whatever the interleaving, the manager goes through the
// states of a sequential run in which closures are executed once each, in the order of
// their pushes and only between batches; nothing falls inside one but what the world
// outside does to descriptors and shared state; and every call gets its own answer.

module ProtocolHistory {
  import opened EventData
  import opened Index
  import opened Dispatch
  import opened Closures
  import opened Protocol
  import opened ProtocolWakeup

  // ---------- the sequential run ----------

  /** The manager once the code under way has run to its end without interruption. */
  function Finish<T, W, V>(beh: Behaviour<T, W>, m: Manager<T, W>, pc: Pc<T, W, V>): Manager<T, W> {
    match pc
    case Processing(id, p, h, _, _, _) => FinishCallback(m, id, p, h)
    case Executing(_, c, past) => RunClosure(beh, m, c, past).0
    case Initialising(_, c, past, id, p, h) =>
      var (m1, reply) := FinishInit(m, id, p, Run(m.ep, id, p, h));
      RunClosure(beh, m1, c, past + [reply.value]).0
    case _ => m
  }

  /** The result with which the closure under way will end. */
  function Value<T, W, V>(beh: Behaviour<T, W>, m: Manager<T, W>, pc: Pc<T, W, V>): Option<V> {
    match pc
    case Executing(_, c, past) => RunClosure(beh, m, c, past).1
    case Initialising(_, c, past, id, p, h) =>
      var (m1, reply) := FinishInit(m, id, p, Run(m.ep, id, p, h));
      RunClosure(beh, m1, c, past + [reply.value]).1
    case Replying(_, v) => Some(v)
    case _ => None
  }

  /** A program counter stripped to the code that is under way. */
  function Bare<T, W, V>(pc: Pc<T, W, V>): Pc<T, W, V> {
    match pc
    case Processing(id, p, h, _, _, _) => Processing(id, p, h, 0, 0, None)
    case Executing(_, c, past) => Executing(Owner, c, past)
    case Initialising(_, c, past, id, p, h) => Initialising(Owner, c, past, id, p, h)
    case _ => Idle
  }

  /** One step of that code, with no channel and no history. */
  function OwnStep<T, W, V>(beh: Behaviour<T, W>, m: Manager<T, W>, pc: Pc<T, W, V>): (Manager<T, W>, Pc<T, W, V>) {
    var s := Sys(m, pc, Channel([], 0, map[], map[], 0, []), Past([], [], 0, [], [], 0, map[], {}));
    var s1 :=
      match pc
      case Processing(_, _, _, _, _, _) => TickProcessing(s)
      case Executing(_, _, _) => TickExecuting(beh, s)
      case Initialising(_, _, _, _, _, _) => TickInitialising(s)
      case _ => s;
    (s1.m, Bare(s1.pc))
  }

  function OwnSteps<T, W, V>(
      beh: Behaviour<T, W>, m: Manager<T, W>, pc: Pc<T, W, V>, k: nat): (Manager<T, W>, Pc<T, W, V>) {
    if k == 0 then (m, pc) else var (m1, pc1) := OwnSteps(beh, m, pc, k - 1); OwnStep(beh, m1, pc1)
  }

  /** How an item starts. */
  function Begin<T, W, V>(beh: Behaviour<T, W>, m: Manager<T, W>, item: Item<T, W, V>): (Manager<T, W>, Pc<T, W, V>) {
    match item
    case Entry(i, _) =>
      if i < |m.ep.ready| && Look(m, i).ToProcess? then
        var id := Look(m, i).id;
        (m, Processing(id, beh.process(m.subscribers[id], m.world, m.ep.ready[i]), [], 0, 0, None))
      else (m, Idle)
    case Executed(code, _, _) => (m, Executing(Owner, code(m.world), []))
    case _ => (m, Idle)
  }

  /** The code under way, carried on to where each outside effect hit it. */
  function Resume<T, W, V>(
      beh: Behaviour<T, W>, m: Manager<T, W>, pc: Pc<T, W, V>, trail: seq<Interruption<W>>
  ): (Manager<T, W>, Pc<T, W, V>)
    decreases |trail|
  {
    if trail == [] then (m, pc)
    else
      var hit := trail[|trail| - 1];
      var (m1, pc1) := Resume(beh, m, pc, trail[..|trail| - 1]);
      var (m2, pc2) := OwnSteps(beh, m1, pc1, hit.after);
      (ApplyEffect(m2, hit.e), pc2)
  }

  function Trail<T, W, V>(item: Item<T, W, V>): seq<Interruption<W>> {
    match item
    case Entry(_, trail) => trail
    case Executed(_, _, trail) => trail
    case _ => []
  }

  /** An item up to the last outside effect that fell inside it. */
  function Cursor<T, W, V>(beh: Behaviour<T, W>, m: Manager<T, W>, item: Item<T, W, V>): (Manager<T, W>, Pc<T, W, V>) {
    var (m1, pc1) := Begin(beh, m, item);
    Resume(beh, m1, pc1, Trail(item))
  }

  /** One item of the log, with nothing of the manager or its senders in between. */
  function ReplayItem<T, W, V>(beh: Behaviour<T, W>, m: Manager<T, W>, item: Item<T, W, V>): Manager<T, W> {
    match item
    case Poll(batch) => if |batch| <= |m.ep.ready| then Fill(m, batch) else m
    case Outside(e) => ApplyEffect(m, e)
    case _ => var (m1, pc1) := Cursor(beh, m, item); Finish(beh, m1, pc1)
  }

  function Replay<T, W, V>(beh: Behaviour<T, W>, m: Manager<T, W>, log: seq<Item<T, W, V>>): Manager<T, W> {
    if log == [] then m else ReplayItem(beh, Replay(beh, m, log[..|log| - 1]), log[|log| - 1])
  }

  /** An item that no outside effect hit is a dispatch iteration, or a closure, run whole. */
  lemma UninterruptedEntryIsWhole<T(!new), W(!new), V(!new)>(beh: Behaviour<T, W>, m: Manager<T, W>, i: nat)
    requires i < |m.ep.ready|
    ensures ReplayItem<T, W, V>(beh, m, Entry(i, [])) == VisitEntry(beh, m, i).0
  {
  }

  lemma UninterruptedClosureIsWhole<T(!new), W(!new), V(!new)>(
      beh: Behaviour<T, W>, m: Manager<T, W>, code: W -> Closure<T, W, V>, remote: bool)
    ensures ReplayItem(beh, m, Executed(code, remote, [])) == RunClosure(beh, m, code(m.world), []).0
    ensures ValueOf(beh, m, Executed(code, remote, [])) == RunClosure(beh, m, code(m.world), []).1
  {
  }

  /** The result with which a logged closure ends. */
  function ValueOf<T, W, V>(beh: Behaviour<T, W>, m: Manager<T, W>, item: Item<T, W, V>): Option<V> {
    var (m1, pc1) := Cursor(beh, m, item);
    Value(beh, m1, pc1)
  }

  /** The interrupted run, completed, is the sequential run. */
  ghost predicate Sequential<T, W, V>(beh: Behaviour<T, W>, m0: Manager<T, W>, s: Sys<T, W, V>) {
    Finish(beh, s.m, s.pc) == Replay(beh, m0, s.past.log) && Tracked(beh, m0, s)
  }

  /** The item under way has got, from its last interruption, to where the manager is. */
  ghost predicate Tracked<T, W, V>(beh: Behaviour<T, W>, m0: Manager<T, W>, s: Sys<T, W, V>) {
    InItem(s.pc) ==>
      && s.past.log != []
      && var n := |s.past.log| - 1;
         var (m1, pc1) := Cursor(beh, Replay(beh, m0, s.past.log[..n]), s.past.log[n]);
         (s.m, Bare(s.pc)) == OwnSteps(beh, m1, pc1, s.past.since)
  }

  lemma ReplayLast<T, W, V>(beh: Behaviour<T, W>, m: Manager<T, W>, log: seq<Item<T, W, V>>, item: Item<T, W, V>)
    ensures Replay(beh, m, log + [item]) == ReplayItem(beh, Replay(beh, m, log), item)
  {
    assert (log + [item])[..|log|] == log;
  }

  /** A single operation of the code under way brings its end no closer and no further. */
  lemma ProcessingFinishes<T(!new), W(!new), V(!new)>(beh: Behaviour<T, W>, s: Sys<T, W, V>)
    requires s.pc.Processing?
    ensures Finish(beh, TickProcessing(s).m, TickProcessing(s).pc) == Finish(beh, s.m, s.pc)
  {
  }

  lemma InitialisingFinishes<T(!new), W(!new), V(!new)>(beh: Behaviour<T, W>, s: Sys<T, W, V>)
    requires s.pc.Initialising?
    ensures
      var s1 := TickInitialising(s);
      Finish(beh, s1.m, s1.pc) == Finish(beh, s.m, s.pc) && Value(beh, s1.m, s1.pc) == Value(beh, s.m, s.pc)
  {
  }

  lemma ExecutingFinishes<T(!new), W(!new), V(!new)>(beh: Behaviour<T, W>, s: Sys<T, W, V>)
    requires s.pc.Executing?
    ensures
      var s1 := TickExecuting(beh, s);
      && Finish(beh, s1.m, s1.pc) == Finish(beh, s.m, s.pc)
      && (s1.pc.Executing? || s1.pc.Initialising? || s1.pc.Replying? ==>
            Value(beh, s1.m, s1.pc) == Value(beh, s.m, s.pc))
  {
  }

  lemma TickIsOwnStep<T(!new), W(!new), V(!new)>(beh: Behaviour<T, W>, s: Sys<T, W, V>)
    requires Enabled(s, Tick) && InItem(s.pc)
    ensures var s1 := Next(beh, s, Tick); (s1.m, Bare(s1.pc)) == OwnStep(beh, s.m, Bare(s.pc))
    ensures Next(beh, s, Tick).past.since == s.past.since + 1
  {
  }

  /** The step is an outside effect that falls inside a callback or closure. */
  predicate Interrupts<T, W, V>(s: Sys<T, W, V>, l: Label<T, W, V>) {
    l.Env? && InItem(s.pc)
  }

  /** What a step adds to the log. */
  function Noted<T, W, V>(s: Sys<T, W, V>, l: Label<T, W, V>): seq<Item<T, W, V>> {
    match l
    case Call(code) => [Executed(code, false, [])]
    case Wait(batch) => [Poll(batch)]
    case Env(e) => if InItem(s.pc) then [] else [Outside(e)]
    case Tick =>
      if s.pc.Receiving? && s.ch.queue != [] then [Executed(s.ch.queue[0].code, true, [])]
      else if s.pc.Dispatching? && s.pc.i < s.pc.n && s.pc.i < |s.m.ep.ready| && !Look(s.m, s.pc.i).Broken? then
        [Entry(s.pc.i, [])]
      else []
    case _ => []
  }

  predicate Receives<T, W, V>(s: Sys<T, W, V>, l: Label<T, W, V>) {
    l.Tick? && s.pc.Receiving? && s.ch.queue != []
  }

  /** The log with the item under way interrupted. */
  function Amended<T, W, V>(s: Sys<T, W, V>, e: Effect<W>): seq<Item<T, W, V>>
    requires s.past.log != []
  {
    var n := |s.past.log| - 1;
    s.past.log[..n] + [Interrupted(s.past.log[n], s.past.since, e)]
  }

  /** How a step extends the history. */
  lemma StepNotes<T(!new), W(!new), V(!new)>(beh: Behaviour<T, W>, s: Sys<T, W, V>, l: Label<T, W, V>)
    requires Enabled(s, l) && (InItem(s.pc) ==> s.past.log != [])
    ensures
      var s1 := Next(beh, s, l);
      && s1.past.log == (if Interrupts(s, l) then Amended(s, l.e) else s.past.log + Noted(s, l))
      && s1.past.ran == s.past.ran + (if Receives(s, l) then [|s.past.log|] else [])
      && s.ch.pushed <= s1.ch.pushed && (!l.Push? ==> s1.ch.pushed == s.ch.pushed)
      && (!(l.Tick? && s.pc.Replying?) ==> s1.ch.replies == s.ch.replies)
  {
  }

  lemma DispatchingFinishes<T(!new), W(!new), V(!new)>(beh: Behaviour<T, W>, s: Sys<T, W, V>)
    requires s.pc.Dispatching?
    ensures
      var s1 := TickDispatching(beh, s);
      Finish(beh, s1.m, s1.pc) == if Noted(s, Tick) == [] then s.m else ReplayItem(beh, s.m, Noted(s, Tick)[0])
  {
  }

  lemma TickFinishes<T(!new), W(!new), V(!new)>(beh: Behaviour<T, W>, s: Sys<T, W, V>)
    requires Enabled(s, Tick)
    ensures
      var s1 := Next(beh, s, Tick);
      Finish(beh, s1.m, s1.pc) ==
      if Noted(s, Tick) == [] then Finish(beh, s.m, s.pc)
      else ReplayItem(beh, Finish(beh, s.m, s.pc), Noted(s, Tick)[0])
  {
    match s.pc {
      case Dispatching(_, _, _) => DispatchingFinishes(beh, s);
      case Processing(_, _, _, _, _, _) => ProcessingFinishes(beh, s);
      case Executing(_, _, _) => ExecutingFinishes(beh, s);
      case Initialising(_, _, _, _, _, _) => InitialisingFinishes(beh, s);
      case _ =>
    }
  }

  /** Unless it is an outside effect that hits the item under way, a step changes nothing about
      how that item ends, or it starts the item that it notes. */
  lemma StepFinishes<T(!new), W(!new), V(!new)>(beh: Behaviour<T, W>, s: Sys<T, W, V>, l: Label<T, W, V>)
    requires Enabled(s, l) && !Interrupts(s, l)
    ensures
      var s1 := Next(beh, s, l);
      Finish(beh, s1.m, s1.pc) ==
      if Noted(s, l) == [] then Finish(beh, s.m, s.pc) else ReplayItem(beh, Finish(beh, s.m, s.pc), Noted(s, l)[0])
  {
    if l.Tick? {
      TickFinishes(beh, s);
    }
  }

  /** An item that a step starts is under way from its beginning. */
  lemma StartedIsTracked<T(!new), W(!new), V(!new)>(beh: Behaviour<T, W>, s: Sys<T, W, V>, l: Label<T, W, V>)
    requires Enabled(s, l) && !InItem(s.pc) && InItem(Next(beh, s, l).pc)
    ensures
      var s1 := Next(beh, s, l);
      && |Noted(s, l)| == 1 && s1.past.since == 0 && Finish(beh, s.m, s.pc) == s.m
      && (s1.m, Bare(s1.pc)) == Cursor(beh, s.m, Noted(s, l)[0])
  {
  }

  /** An outside effect hits the item under way where the manager is. */
  lemma HitIsTracked<T(!new), W(!new), V(!new)>(
      beh: Behaviour<T, W>, m: Manager<T, W>, item: Item<T, W, V>, after: nat, e: Effect<W>)
    requires item.Entry? || item.Executed?
    ensures
      var (m1, pc1) := Cursor(beh, m, item);
      var (m2, pc2) := OwnSteps(beh, m1, pc1, after);
      Cursor(beh, m, Interrupted(item, after, e)) == (ApplyEffect(m2, e), pc2)
  {
    var trail := Trail(item);
    assert (trail + [During(after, e)])[..|trail|] == trail;
  }

  lemma BareFinishes<T(!new), W(!new), V(!new)>(beh: Behaviour<T, W>, m: Manager<T, W>, pc: Pc<T, W, V>)
    ensures Finish(beh, m, Bare(pc)) == Finish(beh, m, pc)
    ensures InItem(pc) ==> Value(beh, m, Bare(pc)) == Value(beh, m, pc)
  {
  }

  /** A poll or an outside effect leaves nothing under way. */
  lemma NothingUnderway<T(!new), W(!new), V(!new)>(beh: Behaviour<T, W>, m: Manager<T, W>, item: Item<T, W, V>, k: nat)
    requires item.Poll? || item.Outside?
    ensures Cursor(beh, m, item) == (m, Idle) && OwnSteps<T, W, V>(beh, m, Idle, k) == (m, Idle)
  {
    if k > 0 {
      NothingUnderway(beh, m, item, k - 1);
    }
  }

  /** Where an outside effect leaves the item it hits. */
  lemma HitIsHere<T(!new), W(!new), V(!new)>(beh: Behaviour<T, W>, m0: Manager<T, W>, s: Sys<T, W, V>, e: Effect<W>)
    requires Tracked(beh, m0, s) && InItem(s.pc)
    ensures
      var n := |s.past.log| - 1;
      && s.past.log != []
      && Cursor(beh, Replay(beh, m0, s.past.log[..n]), Interrupted(s.past.log[n], s.past.since, e)) ==
         (ApplyEffect(s.m, e), Bare(s.pc))
      && (s.past.log[n].Entry? || s.past.log[n].Executed?)
  {
    var n := |s.past.log| - 1;
    var before := Replay(beh, m0, s.past.log[..n]);
    if s.past.log[n].Poll? || s.past.log[n].Outside? {
      NothingUnderway(beh, before, s.past.log[n], s.past.since);
    }
    HitIsTracked(beh, before, s.past.log[n], s.past.since, e);
  }

  lemma ReplayAmended<T(!new), W(!new), V(!new)>(beh: Behaviour<T, W>, m0: Manager<T, W>, s: Sys<T, W, V>, e: Effect<W>)
    requires s.past.log != []
    ensures
      var n := |s.past.log| - 1;
      && |Amended(s, e)| == n + 1 && Amended(s, e)[..n] == s.past.log[..n]
      && Amended(s, e)[n] == Interrupted(s.past.log[n], s.past.since, e)
      && Replay(beh, m0, Amended(s, e)) == ReplayItem(beh, Replay(beh, m0, s.past.log[..n]), Amended(s, e)[n])
  {
    var n := |s.past.log| - 1;
    ReplayLast(beh, m0, s.past.log[..n], Interrupted(s.past.log[n], s.past.since, e));
  }

  lemma InterruptionIsSequential<T(!new), W(!new), V(!new)>(
      beh: Behaviour<T, W>, m0: Manager<T, W>, s: Sys<T, W, V>, e: Effect<W>)
    requires Tracked(beh, m0, s) && InItem(s.pc)
    ensures Sequential(beh, m0, Disturb(s, e))
  {
    HitIsHere(beh, m0, s, e);
    ReplayAmended(beh, m0, s, e);
    BareFinishes(beh, ApplyEffect(s.m, e), s.pc);
    assert Disturb(s, e).past.log == Amended(s, e);
  }

  lemma TrackedCarries<T(!new), W(!new), V(!new)>(
      beh: Behaviour<T, W>, m0: Manager<T, W>, s: Sys<T, W, V>, s1: Sys<T, W, V>)
    requires Tracked(beh, m0, s) && InItem(s.pc) && s1.past.log == s.past.log
    requires
      || (s1.m, s1.pc, s1.past.since) == (s.m, s.pc, s.past.since)
      || ((s1.m, Bare(s1.pc)) == OwnStep(beh, s.m, Bare(s.pc)) && s1.past.since == s.past.since + 1)
    ensures Tracked(beh, m0, s1)
  {
  }

  /** A thread in `RemoteEndpoint` leaves the manager where it is. */
  lemma SenderLeavesManager<T(!new), W(!new), V(!new)>(beh: Behaviour<T, W>, s: Sys<T, W, V>, l: Label<T, W, V>)
    requires Enabled(s, l) && !l.Tick? && !l.Env? && InItem(s.pc)
    ensures var s1 := Next(beh, s, l); (s1.m, s1.pc, s1.past) == (s.m, s.pc, s.past)
  {
  }

  lemma StepStaysTracked<T(!new), W(!new), V(!new)>(
      beh: Behaviour<T, W>, m0: Manager<T, W>, s: Sys<T, W, V>, l: Label<T, W, V>)
    requires Enabled(s, l) && Tracked(beh, m0, s) && !Interrupts(s, l) && InItem(s.pc)
    ensures Tracked(beh, m0, Next(beh, s, l))
  {
    if l.Tick? {
      StepNotes(beh, s, l);
      TickIsOwnStep(beh, s);
    } else {
      SenderLeavesManager(beh, s, l);
    }
    TrackedCarries(beh, m0, s, Next(beh, s, l));
  }

  lemma StartIsTracked<T(!new), W(!new), V(!new)>(
      beh: Behaviour<T, W>, m0: Manager<T, W>, s: Sys<T, W, V>, l: Label<T, W, V>)
    requires Enabled(s, l) && Sequential(beh, m0, s) && !InItem(s.pc)
    ensures Tracked(beh, m0, Next(beh, s, l))
  {
    if InItem(Next(beh, s, l).pc) {
      StepNotes(beh, s, l);
      StartedIsTracked(beh, s, l);
      assert (s.past.log + Noted(s, l))[..|s.past.log|] == s.past.log;
    }
  }

  lemma StepIsSequential<T(!new), W(!new), V(!new)>(
      beh: Behaviour<T, W>, m0: Manager<T, W>, s: Sys<T, W, V>, l: Label<T, W, V>)
    requires Enabled(s, l) && Sequential(beh, m0, s)
    ensures Sequential(beh, m0, Next(beh, s, l))
  {
    if Interrupts(s, l) {
      InterruptionIsSequential(beh, m0, s, l.e);
    } else {
      if InItem(s.pc) {
        StepStaysTracked(beh, m0, s, l);
      } else {
        StartIsTracked(beh, m0, s, l);
      }
      StepReplays(beh, m0, s, l);
    }
  }

  lemma StepReplays<T(!new), W(!new), V(!new)>(
      beh: Behaviour<T, W>, m0: Manager<T, W>, s: Sys<T, W, V>, l: Label<T, W, V>)
    requires Enabled(s, l) && Sequential(beh, m0, s) && !Interrupts(s, l)
    ensures var s1 := Next(beh, s, l); Finish(beh, s1.m, s1.pc) == Replay(beh, m0, s1.past.log)
  {
    StepNotes(beh, s, l);
    StepFinishes(beh, s, l);
    if Noted(s, l) != [] {
      ReplayLast(beh, m0, s.past.log, Noted(s, l)[0]);
    }
  }

  // ---------- the shape of the sequential run ----------

  /** How many entries of the last polled batch have been visited, and how many it has. */
  function OpenBatch<T, W, V>(log: seq<Item<T, W, V>>): (nat, nat) {
    if log == [] then (0, 0) else Advance(OpenBatch(log[..|log| - 1]), log[|log| - 1])
  }

  function Advance<T, W, V>(open: (nat, nat), item: Item<T, W, V>): (nat, nat) {
    match item
    case Poll(batch) => (0, |batch|)
    case Entry(_, _) => (open.0 + 1, open.1)
    case _ => open
  }

  /** Entries are visited in order, each once, and no closure or poll comes between a poll
      and the last of its entries. */
  predicate MayFollow<T, W, V>(open: (nat, nat), item: Item<T, W, V>) {
    match item
    case Poll(_) => open.0 == open.1
    case Executed(_, _, _) => open.0 == open.1
    case Entry(i, _) => i == open.0 < open.1
    case Outside(_) => true
  }

  predicate Bracketed<T, W, V>(log: seq<Item<T, W, V>>) {
    log == [] || (Bracketed(log[..|log| - 1]) && MayFollow(OpenBatch(log[..|log| - 1]), log[|log| - 1]))
  }

  predicate Aligned<T, W, V>(pc: Pc<T, W, V>, open: (nat, nat)) {
    match pc
    case Dispatching(i, n, _) => open.0 == i <= n == open.1
    case Processing(_, _, _, i, n, _) => open.0 == i + 1 <= n == open.1
    case Crashed(_, _) => true
    case _ => open.0 == open.1
  }

  ghost predicate Structured<T, W, V>(s: Sys<T, W, V>) {
    Bracketed(s.past.log) && Aligned(s.pc, OpenBatch(s.past.log))
  }

  /** The closures that remote threads asked for, in the order of their execution. */
  function RemoteCodes<T, W, V>(log: seq<Item<T, W, V>>): seq<W -> Closure<T, W, V>> {
    if log == [] then []
    else
      var last := log[|log| - 1];
      RemoteCodes(log[..|log| - 1]) + if last.Executed? && last.remote then [last.code] else []
  }

  function Codes<T, W, V>(msgs: seq<Message<T, W, V>>): seq<W -> Closure<T, W, V>> {
    seq(|msgs|, k requires 0 <= k < |msgs| => msgs[k].code)
  }

  ghost predicate InPushOrder<T, W, V>(s: Sys<T, W, V>) {
    |s.past.ran| <= |s.ch.pushed| && RemoteCodes(s.past.log) == Codes(s.ch.pushed[..|s.past.ran|])
  }

  lemma LogLast<T, W, V>(log: seq<Item<T, W, V>>, item: Item<T, W, V>)
    ensures OpenBatch(log + [item]) == Advance(OpenBatch(log), item)
    ensures Bracketed(log + [item]) == (Bracketed(log) && MayFollow(OpenBatch(log), item))
    ensures RemoteCodes(log + [item]) == RemoteCodes(log) + if item.Executed? && item.remote then [item.code] else []
  {
    assert (log + [item])[..|log|] == log;
  }

  /** An interruption does not change what sort of item it hits. */
  lemma AmendedLast<T(!new), W(!new), V(!new)>(s: Sys<T, W, V>, e: Effect<W>)
    requires s.past.log != []
    ensures
      var log := Amended(s, e);
      && |log| == |s.past.log| && log[..|log| - 1] == s.past.log[..|log| - 1]
      && OpenBatch(log) == OpenBatch(s.past.log) && Bracketed(log) == Bracketed(s.past.log)
      && RemoteCodes(log) == RemoteCodes(s.past.log)
  {
    var n := |s.past.log| - 1;
    LogLast(s.past.log[..n], Interrupted(s.past.log[n], s.past.since, e));
    LogLast(s.past.log[..n], s.past.log[n]);
    assert s.past.log[..n] + [s.past.log[n]] == s.past.log;
  }

  lemma StepIsAligned<T(!new), W(!new), V(!new)>(
      beh: Behaviour<T, W>, s: Sys<T, W, V>, l: Label<T, W, V>, open: (nat, nat))
    requires Enabled(s, l) && Aligned(s.pc, open)
    ensures Noted(s, l) == [] ==> Aligned(Next(beh, s, l).pc, open)
    ensures Noted(s, l) != [] ==>
              MayFollow(open, Noted(s, l)[0]) && Aligned(Next(beh, s, l).pc, Advance(open, Noted(s, l)[0]))
  {
  }

  lemma StepIsStructured<T(!new), W(!new), V(!new)>(beh: Behaviour<T, W>, s: Sys<T, W, V>, l: Label<T, W, V>)
    requires Enabled(s, l) && Structured(s) && (InItem(s.pc) ==> s.past.log != [])
    ensures Structured(Next(beh, s, l))
  {
    StepNotes(beh, s, l);
    StepIsAligned(beh, s, l, OpenBatch(s.past.log));
    if Interrupts(s, l) {
      AmendedLast(s, l.e);
    } else if Noted(s, l) != [] {
      LogLast(s.past.log, Noted(s, l)[0]);
    }
  }

  lemma ReceivingIsInPushOrder<T(!new), W(!new), V(!new)>(beh: Behaviour<T, W>, s: Sys<T, W, V>, l: Label<T, W, V>)
    requires Enabled(s, l) && Fifo(s) && InPushOrder(s) && Receives(s, l)
    ensures InPushOrder(Next(beh, s, l))
  {
    var n := |s.past.ran|;
    LogLast(s.past.log, Executed(s.ch.queue[0].code, true, []));
    assert s.ch.pushed[n] == s.ch.queue[0];
    assert Codes(s.ch.pushed[..n + 1]) == Codes(s.ch.pushed[..n]) + [s.ch.pushed[n].code];
  }

  lemma InPushOrderCarries<T(!new), W(!new), V(!new)>(s: Sys<T, W, V>, s1: Sys<T, W, V>)
    requires InPushOrder(s) && s1.past.ran == s.past.ran && s.ch.pushed <= s1.ch.pushed
    requires RemoteCodes(s1.past.log) == RemoteCodes(s.past.log)
    ensures InPushOrder(s1)
  {
    assert s1.ch.pushed[..|s.past.ran|] == s.ch.pushed[..|s.past.ran|];
  }

  lemma NotedByManager<T(!new), W(!new), V(!new)>(s: Sys<T, W, V>, l: Label<T, W, V>)
    requires Enabled(s, l) && !Receives(s, l)
    ensures RemoteCodes(s.past.log + Noted(s, l)) == RemoteCodes(s.past.log)
  {
    if Noted(s, l) != [] {
      LogLast(s.past.log, Noted(s, l)[0]);
    } else {
      assert s.past.log + [] == s.past.log;
    }
  }

  lemma StepIsInPushOrder<T(!new), W(!new), V(!new)>(beh: Behaviour<T, W>, s: Sys<T, W, V>, l: Label<T, W, V>)
    requires Enabled(s, l) && Fifo(s) && InPushOrder(s) && (InItem(s.pc) ==> s.past.log != [])
    ensures InPushOrder(Next(beh, s, l))
  {
    if Receives(s, l) {
      ReceivingIsInPushOrder(beh, s, l);
    } else {
      StepNotes(beh, s, l);
      if Interrupts(s, l) {
        AmendedLast(s, l.e);
      } else {
        NotedByManager(s, l);
      }
      InPushOrderCarries(s, Next(beh, s, l));
    }
  }

  // ---------- answers ----------

  /** The result of the closure at position `p` of the sequential run. */
  function AnswerAt<T, W, V>(beh: Behaviour<T, W>, m0: Manager<T, W>, log: seq<Item<T, W, V>>, p: nat): Option<V>
    requires p < |log|
  {
    ValueOf(beh, Replay(beh, m0, log[..p]), log[p])
  }

  /** Where each received message was executed; if one is under way, it is at the end. */
  ghost predicate Traced<T, W, V>(s: Sys<T, W, V>) {
    && |s.past.ran| <= |s.ch.pushed|
    && (forall k :: 0 <= k < |s.past.ran| ==>
          && s.past.ran[k] < |s.past.log|
          && s.past.log[s.past.ran[k]].Executed? && s.past.log[s.past.ran[k]].remote
          && s.past.log[s.past.ran[k]].code == s.ch.pushed[k].code)
    && (InItem(s.pc) ==>
          && s.past.log != []
          && (forall k :: 0 <= k < Handled(s) ==> s.past.ran[k] < |s.past.log| - 1)
          && (Busy(s.pc) ==> |s.past.ran| > 0 && s.past.ran[|s.past.ran| - 1] == |s.past.log| - 1))
  }

  /** The result that message `k` was, or will be, answered with. */
  ghost function Due<T, W, V>(beh: Behaviour<T, W>, m0: Manager<T, W>, s: Sys<T, W, V>, k: nat): Option<V>
    requires Traced(s) && k < |s.past.ran|
  {
    AnswerAt(beh, m0, s.past.log, s.past.ran[k])
  }

  /** Message `k` has been answered, if it asked for that, with its own closure's result. */
  ghost predicate Settled<T, W, V>(beh: Behaviour<T, W>, m0: Manager<T, W>, s: Sys<T, W, V>, k: nat)
    requires Traced(s) && k < |s.past.ran|
  {
    var call := s.ch.pushed[k].call;
    call.Some? ==> call.value in s.ch.replies && Due(beh, m0, s, k) == Some(s.ch.replies[call.value])
  }

  ghost predicate Answered<T, W, V>(beh: Behaviour<T, W>, m0: Manager<T, W>, s: Sys<T, W, V>) {
    && Traced(s)
    && (forall k :: 0 <= k < Handled(s) ==> Settled(beh, m0, s, k))
    && (Busy(s.pc) && !s.pc.Crashed? ==> |s.past.ran| > 0 && Value(beh, s.m, s.pc) == Due(beh, m0, s, |s.past.ran| - 1))
  }

  /** The history up to and including message `k` is the same in both. */
  ghost predicate SameUpTo<T, W, V>(s: Sys<T, W, V>, s1: Sys<T, W, V>, k: nat)
    requires Traced(s) && k < |s.past.ran|
  {
    && s.past.ran <= s1.past.ran && s.ch.pushed <= s1.ch.pushed
    && |s.past.log| <= |s1.past.log|
    && s1.past.log[..s.past.ran[k] + 1] == s.past.log[..s.past.ran[k] + 1]
  }

  /** Steps that leave the history up to there alone leave what was settled settled. */
  lemma SettledStays<T(!new), W(!new), V(!new)>(
      beh: Behaviour<T, W>, m0: Manager<T, W>, s: Sys<T, W, V>, s1: Sys<T, W, V>, k: nat)
    requires Traced(s) && Traced(s1) && k < |s.past.ran| && SameUpTo(s, s1, k)
    ensures Due(beh, m0, s1, k) == Due(beh, m0, s, k)
    ensures Settled(beh, m0, s, k)
            && (s.ch.pushed[k].call.Some? && s.ch.pushed[k].call.value in s.ch.replies ==>
                  s.ch.pushed[k].call.value in s1.ch.replies
                  && s1.ch.replies[s.ch.pushed[k].call.value] == s.ch.replies[s.ch.pushed[k].call.value])
            ==> Settled(beh, m0, s1, k)
  {
    var p := s.past.ran[k];
    assert s1.past.ran[k] == p && s1.ch.pushed[k] == s.ch.pushed[k];
    assert s1.past.log[..p] == s1.past.log[..p + 1][..p] == s.past.log[..p];
    assert s1.past.log[p] == s1.past.log[..p + 1][p] == s.past.log[p];
  }

  /** A step changes the history of no message but the one under way. */
  lemma StepKeepsHistory<T(!new), W(!new), V(!new)>(beh: Behaviour<T, W>, s: Sys<T, W, V>, l: Label<T, W, V>, k: nat)
    requires Enabled(s, l) && Traced(s) && k < |s.past.ran| && !Interrupts(s, l)
    ensures SameUpTo(s, Next(beh, s, l), k)
  {
    StepNotes(beh, s, l);
  }

  lemma ReceivingIsTraced<T(!new), W(!new), V(!new)>(beh: Behaviour<T, W>, s: Sys<T, W, V>, l: Label<T, W, V>)
    requires Enabled(s, l) && Wired(s) && Traced(s) && Receives(s, l)
    ensures Traced(Next(beh, s, l))
  {
    assert s.ch.pushed[|s.past.ran|] == s.ch.queue[0];
  }

  lemma InterruptionIsTraced<T(!new), W(!new), V(!new)>(s: Sys<T, W, V>, e: Effect<W>)
    requires Traced(s) && InItem(s.pc)
    ensures Traced(Disturb(s, e))
    ensures forall k :: 0 <= k < Handled(s) ==> SameUpTo(s, Disturb(s, e), k)
  {
    assert Disturb(s, e).past.log == Amended(s, e);
  }

  /** What a step that receives nothing does to the item under way, if any. */
  lemma StepKeepsPlace<T(!new), W(!new), V(!new)>(beh: Behaviour<T, W>, s: Sys<T, W, V>, l: Label<T, W, V>)
    requires Enabled(s, l) && !Receives(s, l)
    ensures
      var s1 := Next(beh, s, l);
      InItem(s1.pc) ==>
        if InItem(s.pc) then Busy(s1.pc) == Busy(s.pc) && Noted(s, l) == []
        else !Busy(s1.pc) && |Noted(s, l)| == 1
  {
  }

  lemma TracedCarries<T(!new), W(!new), V(!new)>(s: Sys<T, W, V>, s1: Sys<T, W, V>, noted: seq<Item<T, W, V>>)
    requires Traced(s) && s1.past.ran == s.past.ran && s.ch.pushed <= s1.ch.pushed && s1.past.log == s.past.log + noted
    requires InItem(s1.pc) ==>
               if InItem(s.pc) then Busy(s1.pc) == Busy(s.pc) && noted == [] else !Busy(s1.pc) && |noted| == 1
    ensures Traced(s1)
  {
  }

  lemma StepIsTraced<T(!new), W(!new), V(!new)>(beh: Behaviour<T, W>, s: Sys<T, W, V>, l: Label<T, W, V>)
    requires Enabled(s, l) && Wired(s) && Traced(s)
    ensures Traced(Next(beh, s, l))
  {
    if Receives(s, l) {
      ReceivingIsTraced(beh, s, l);
    } else if Interrupts(s, l) {
      InterruptionIsTraced(s, l.e);
    } else {
      StepNotes(beh, s, l);
      StepKeepsPlace(beh, s, l);
      TracedCarries(s, Next(beh, s, l), Noted(s, l));
    }
  }

  /** A message that is received starts with the result that is due to it. */
  lemma ReceivedIsDue<T(!new), W(!new), V(!new)>(beh: Behaviour<T, W>, m0: Manager<T, W>, s: Sys<T, W, V>)
    requires Sequential(beh, m0, s) && s.pc.Receiving? && s.ch.queue != []
    requires Traced(TickReceiving(s))
    ensures var s1 := TickReceiving(s); Value(beh, s1.m, s1.pc) == Due(beh, m0, s1, |s.past.ran|)
  {
    var s1 := TickReceiving(s);
    var item := Executed(s.ch.queue[0].code, true, []);
    assert s1.past.log[..|s.past.log|] == s.past.log && s1.past.log[|s.past.log|] == item;
    assert Cursor(beh, s.m, item) == (s.m, Bare(s1.pc));
    BareFinishes(beh, s1.m, s1.pc);
  }

  lemma ReceivedIsTraced<T(!new), W(!new), V(!new)>(s: Sys<T, W, V>)
    requires Traced(s) && Fifo(s) && s.pc.Receiving? && s.ch.queue != []
    ensures Traced(TickReceiving(s)) && Handled(TickReceiving(s)) == |s.past.ran|
    ensures forall k :: 0 <= k < |s.past.ran| ==> SameUpTo(s, TickReceiving(s), k)
  {
    assert s.ch.pushed[|s.past.ran|] == s.ch.queue[0];
  }

  lemma ReceivedIsAnswered<T(!new), W(!new), V(!new)>(beh: Behaviour<T, W>, m0: Manager<T, W>, s: Sys<T, W, V>)
    requires Fifo(s) && Sequential(beh, m0, s) && Answered(beh, m0, s) && s.pc.Receiving? && s.ch.queue != []
    ensures Answered(beh, m0, TickReceiving(s))
  {
    var s1 := TickReceiving(s);
    ReceivedIsTraced(s);
    ReceivedIsDue(beh, m0, s);
    forall k | 0 <= k < |s.past.ran| ensures Settled(beh, m0, s1, k) {
      SettledStays(beh, m0, s, s1, k);
    }
  }

  lemma EmptyIsAnswered<T(!new), W(!new), V(!new)>(beh: Behaviour<T, W>, m0: Manager<T, W>, s: Sys<T, W, V>)
    requires Answered(beh, m0, s) && s.pc.Receiving? && s.ch.queue == []
    ensures Answered(beh, m0, TickReceiving(s))
  {
    forall k | 0 <= k < |s.past.ran| ensures Settled(beh, m0, TickReceiving(s), k) {
      SettledStays(beh, m0, s, TickReceiving(s), k);
    }
  }

  lemma ReceivingIsAnswered<T(!new), W(!new), V(!new)>(beh: Behaviour<T, W>, m0: Manager<T, W>, s: Sys<T, W, V>)
    requires Fifo(s) && Sequential(beh, m0, s) && Answered(beh, m0, s) && s.pc.Receiving?
    ensures Answered(beh, m0, TickReceiving(s))
  {
    if s.ch.queue != [] {
      ReceivedIsAnswered(beh, m0, s);
    } else {
      EmptyIsAnswered(beh, m0, s);
    }
  }

  /** Of the history, `since` does not matter to the answers. */
  lemma SinceDoesNotMatter<T(!new), W(!new), V(!new)>(beh: Behaviour<T, W>, m0: Manager<T, W>, s: Sys<T, W, V>, n: nat)
    requires Answered(beh, m0, s)
    ensures Answered(beh, m0, s.(past := s.past.(since := n)))
  {
    var s1 := s.(past := s.past.(since := n));
    forall k | 0 <= k < Handled(s1) ensures Settled(beh, m0, s1, k) {
      SettledStays(beh, m0, s, s1, k);
    }
  }

  /** Of the calls, a reply reaches that of the last message received. */
  lemma ReplySettles<T(!new), W(!new), V(!new)>(beh: Behaviour<T, W>, m0: Manager<T, W>, s: Sys<T, W, V>, k: nat)
    requires Answered(beh, m0, s) && s.pc.Replying? && Current(s) && CallsDistinct(s.ch) && k < |s.past.ran|
    ensures Traced(AfterReply(s)) && Settled(beh, m0, AfterReply(s), k)
  {
    SettledStays(beh, m0, s, AfterReply(s), k);
    if k < |s.past.ran| - 1 {
      assert Settled(beh, m0, s, k);
    }
  }

  lemma ReplyingIsAnswered<T(!new), W(!new), V(!new)>(beh: Behaviour<T, W>, m0: Manager<T, W>, s: Sys<T, W, V>)
    requires Answered(beh, m0, s) && s.pc.Replying? && Current(s) && CallsDistinct(s.ch)
    ensures Answered(beh, m0, AfterReply(s))
  {
    forall k | 0 <= k < |s.past.ran| ensures Traced(AfterReply(s)) && Settled(beh, m0, AfterReply(s), k) {
      ReplySettles(beh, m0, s, k);
    }
  }

  function AfterReply<T, W, V>(s: Sys<T, W, V>): Sys<T, W, V>
    requires s.pc.Replying?
  {
    Sys(s.m, Receiving, s.ch.(replies := s.ch.replies[s.pc.call := s.pc.v]), s.past.(since := 0))
  }

  lemma InterruptedIsDue<T(!new), W(!new), V(!new)>(
      beh: Behaviour<T, W>, m0: Manager<T, W>, s: Sys<T, W, V>, e: Effect<W>)
    requires Tracked(beh, m0, s) && Traced(s) && InItem(s.pc) && Busy(s.pc)
    ensures Traced(Disturb(s, e)) && |s.past.ran| > 0
    ensures Value(beh, ApplyEffect(s.m, e), s.pc) == Due(beh, m0, Disturb(s, e), |s.past.ran| - 1)
  {
    InterruptionIsTraced(s, e);
    HitIsHere(beh, m0, s, e);
    ReplayAmended(beh, m0, s, e);
    BareFinishes(beh, ApplyEffect(s.m, e), s.pc);
    assert Disturb(s, e).past.log == Amended(s, e);
  }

  /** An outside effect may change the result of the closure it hits, and of none before. */
  lemma InterruptionIsAnswered<T(!new), W(!new), V(!new)>(
      beh: Behaviour<T, W>, m0: Manager<T, W>, s: Sys<T, W, V>, e: Effect<W>)
    requires Tracked(beh, m0, s) && Answered(beh, m0, s) && InItem(s.pc)
    ensures Answered(beh, m0, Disturb(s, e))
  {
    var s1 := Disturb(s, e);
    InterruptionIsTraced(s, e);
    forall k | 0 <= k < Handled(s1) ensures Settled(beh, m0, s1, k) {
      SettledStays(beh, m0, s, s1, k);
    }
    if Busy(s.pc) {
      InterruptedIsDue(beh, m0, s, e);
    }
  }

  /** Other steps leave the message being handled, and the result it will have, alone; or
      they end it when no answer is due. */
  lemma UnderwayStays<T(!new), W(!new), V(!new)>(beh: Behaviour<T, W>, s: Sys<T, W, V>, l: Label<T, W, V>)
    requires Enabled(s, l) && Wired(s) && !(l.Tick? && (s.pc.Receiving? || s.pc.Replying?)) && !Interrupts(s, l)
    ensures
      var s1 := Next(beh, s, l);
      && (Busy(s1.pc) && !s1.pc.Crashed? ==>
            Busy(s.pc) && !s.pc.Crashed? && Value(beh, s1.m, s1.pc) == Value(beh, s.m, s.pc))
      && (Busy(s.pc) && !Busy(s1.pc) ==> 0 < |s.past.ran| <= |s.ch.pushed| && s.ch.pushed[|s.past.ran| - 1].call.None?)
  {
    if l.Tick? && s.pc.Executing? {
      ExecutingFinishes(beh, s);
    } else if l.Tick? && s.pc.Initialising? {
      InitialisingFinishes(beh, s);
    }
  }

  /** Between two states related as by such a step, everything stays answered. */
  lemma AnsweredCarries<T(!new), W(!new), V(!new)>(
      beh: Behaviour<T, W>, m0: Manager<T, W>, s: Sys<T, W, V>, s1: Sys<T, W, V>)
    requires Answered(beh, m0, s) && Traced(s1)
    requires s1.past.ran == s.past.ran && s.ch.pushed <= s1.ch.pushed && s1.ch.replies == s.ch.replies
    requires forall k :: 0 <= k < |s.past.ran| ==> SameUpTo(s, s1, k)
    requires Busy(s1.pc) && !s1.pc.Crashed? ==>
               Busy(s.pc) && !s.pc.Crashed? && Value(beh, s1.m, s1.pc) == Value(beh, s.m, s.pc)
    requires Busy(s.pc) && !Busy(s1.pc) ==>
               0 < |s.past.ran| <= |s.ch.pushed| && s.ch.pushed[|s.past.ran| - 1].call.None?
    ensures Answered(beh, m0, s1)
  {
    forall k | 0 <= k < Handled(s1) ensures Settled(beh, m0, s1, k) {
      if k >= Handled(s) {
        assert k == |s.past.ran| - 1 && s1.ch.pushed[k] == s.ch.pushed[k];
      } else {
        SettledStays(beh, m0, s, s1, k);
      }
    }
    if Busy(s1.pc) && !s1.pc.Crashed? {
      SettledStays(beh, m0, s, s1, |s.past.ran| - 1);
    }
  }

  lemma OtherIsAnswered<T(!new), W(!new), V(!new)>(
      beh: Behaviour<T, W>, m0: Manager<T, W>, s: Sys<T, W, V>, l: Label<T, W, V>)
    requires Enabled(s, l) && Wired(s) && Answered(beh, m0, s) && !(l.Tick? && (s.pc.Receiving? || s.pc.Replying?))
    requires !Interrupts(s, l)
    ensures Answered(beh, m0, Next(beh, s, l))
  {
    StepNotes(beh, s, l);
    StepIsTraced(beh, s, l);
    UnderwayStays(beh, s, l);
    forall k | 0 <= k < |s.past.ran| ensures SameUpTo(s, Next(beh, s, l), k) {
      StepKeepsHistory(beh, s, l, k);
    }
    AnsweredCarries(beh, m0, s, Next(beh, s, l));
  }

  lemma StepIsAnswered<T(!new), W(!new), V(!new)>(
      beh: Behaviour<T, W>, m0: Manager<T, W>, s: Sys<T, W, V>, l: Label<T, W, V>)
    requires Enabled(s, l) && Wired(s) && Sequential(beh, m0, s) && Answered(beh, m0, s)
    ensures Answered(beh, m0, Next(beh, s, l))
  {
    if l.Tick? && s.pc.Receiving? {
      ReceivingIsAnswered(beh, m0, s);
      SinceDoesNotMatter(beh, m0, TickReceiving(s), 0);
    } else if l.Tick? && s.pc.Replying? {
      ReplyingIsAnswered(beh, m0, s);
      assert Next(beh, s, l) == AfterReply(s);
    } else if Interrupts(s, l) {
      InterruptionIsAnswered(beh, m0, s, l.e);
    } else {
      OtherIsAnswered(beh, m0, s, l);
    }
  }

  // ---------- every run ----------

  ghost predicate Orderly<T, W, V>(beh: Behaviour<T, W>, m0: Manager<T, W>, s: Sys<T, W, V>) {
    Wired(s) && Sequential(beh, m0, s) && Structured(s) && InPushOrder(s) && Answered(beh, m0, s)
  }

  lemma StepIsOrderly<T(!new), W(!new), V(!new)>(
      beh: Behaviour<T, W>, m0: Manager<T, W>, s: Sys<T, W, V>, l: Label<T, W, V>)
    requires Orderly(beh, m0, s) && Enabled(s, l)
    ensures Orderly(beh, m0, Next(beh, s, l))
  {
    StepIsWired(beh, s, l);
    StepIsSequential(beh, m0, s, l);
    StepIsStructured(beh, s, l);
    StepIsInPushOrder(beh, s, l);
    StepIsAnswered(beh, m0, s, l);
  }

  lemma {:induction false} RunIsOrderly<T(!new), W(!new), V(!new)>(
      beh: Behaviour<T, W>, m0: Manager<T, W>, s: Sys<T, W, V>, ls: seq<Label<T, W, V>>)
    requires Orderly(beh, m0, s) && Valid(beh, s, ls)
    ensures Orderly(beh, m0, After(beh, s, ls))
    decreases |ls|
  {
    if ls != [] {
      StepIsOrderly(beh, m0, s, ls[0]);
      RunIsOrderly(beh, m0, Next(beh, s, ls[0]), ls[1..]);
    }
  }

  lemma StartIsOrderly<T(!new), W(!new), V(!new)>(
      beh: Behaviour<T, W>, capacity: nat, chan: RawFd, open: set<RawFd>, w: W)
    requires chan >= 0
    ensures Orderly(beh, Fresh(capacity, chan, open, w), Start<T, W, V>(capacity, chan, open, w))
  {
    StartIsWired<T, W, V>(capacity, chan, open, w);
  }

  /** Sequential equivalence. For every interleaving, completing the code under way gives
      the state that replaying the log of whole items gives. In that log the closures pushed
      by all threads appear once each, in the order of their pushes, the rest are still
      queued in that order, and where one is executed no entry of a polled batch is left. */
  lemma ConcurrentRunIsSequential<T(!new), W(!new), V(!new)>(
      beh: Behaviour<T, W>, capacity: nat, chan: RawFd, open: set<RawFd>, w: W, ls: seq<Label<T, W, V>>)
    requires chan >= 0 && Valid(beh, Start(capacity, chan, open, w), ls)
    ensures
      var s := After(beh, Start(capacity, chan, open, w), ls);
      var m0 := Fresh<T, W>(capacity, chan, open, w);
      && Finish(beh, s.m, s.pc) == Replay(beh, m0, s.past.log)
      && (!InItem(s.pc) ==> s.m == Replay(beh, m0, s.past.log))
      && Bracketed(s.past.log)
      && (forall p :: 0 <= p < |s.past.log| && s.past.log[p].Executed? ==> AllVisited(s.past.log[..p]))
      && |s.past.ran| <= |s.ch.pushed|
      && RemoteCodes(s.past.log) == Codes(s.ch.pushed[..|s.past.ran|])
      && s.ch.queue == s.ch.pushed[|s.past.ran|..]
  {
    StartIsOrderly<T, W, V>(beh, capacity, chan, open, w);
    RunIsOrderly(beh, Fresh(capacity, chan, open, w), Start(capacity, chan, open, w), ls);
    var log := After(beh, Start(capacity, chan, open, w), ls).past.log;
    forall p | 0 <= p < |log| && log[p].Executed? ensures AllVisited(log[..p]) {
      BracketedAt(log, p);
    }
  }

  /** No entry of the last polled batch is outstanding. */
  predicate AllVisited<T, W, V>(log: seq<Item<T, W, V>>) {
    OpenBatch(log).0 == OpenBatch(log).1
  }

  /** A blocked call that has a reply has the result of the closure it pushed itself, run at
      the point of the sequential run where that closure was executed. */
  lemma CallGetsItsOwnAnswer<T(!new), W(!new), V(!new)>(
      beh: Behaviour<T, W>, capacity: nat, chan: RawFd, open: set<RawFd>, w: W, ls: seq<Label<T, W, V>>, tid: nat)
    requires chan >= 0 && Valid(beh, Start(capacity, chan, open, w), ls)
    requires var s := After(beh, Start(capacity, chan, open, w), ls); Enabled(s, Collect(tid))
    ensures
      var s := After(beh, Start(capacity, chan, open, w), ls);
      var Waiting(reply, at) := SenderOf(s.ch, tid);
      && at < |s.past.ran| <= |s.ch.pushed| && s.past.ran[at] < |s.past.log|
      && s.past.log[s.past.ran[at]].Executed? && s.past.log[s.past.ran[at]].code == s.ch.pushed[at].code
      && AnswerAt(beh, Fresh(capacity, chan, open, w), s.past.log, s.past.ran[at]) == Some(s.ch.replies[reply])
  {
    var m0 := Fresh<T, W>(capacity, chan, open, w);
    StartIsOrderly<T, W, V>(beh, capacity, chan, open, w);
    RunIsOrderly(beh, m0, Start(capacity, chan, open, w), ls);
    var s := After(beh, Start(capacity, chan, open, w), ls);
    RepliedIsSettled(beh, m0, s, tid);
  }

  lemma RepliedIsSettled<T(!new), W(!new), V(!new)>(beh: Behaviour<T, W>, m0: Manager<T, W>, s: Sys<T, W, V>, tid: nat)
    requires Orderly(beh, m0, s) && Enabled(s, Collect(tid))
    ensures SenderOf(s.ch, tid).at < |s.past.ran| && Settled(beh, m0, s, SenderOf(s.ch, tid).at)
  {
  }

  /** Quiescence. Outside the drain, with the eventfd at zero and no thread between its push
      and its write, nothing has been lost however many sends and kicks were coalesced:
      every message ever pushed has been executed, and every call has its own answer. */
  lemma QuiescentMeansAllDone<T(!new), W(!new), V(!new)>(
      beh: Behaviour<T, W>, capacity: nat, chan: RawFd, open: set<RawFd>, w: W, ls: seq<Label<T, W, V>>)
    requires chan >= 0 && Valid(beh, Start(capacity, chan, open, w), ls)
    requires
      var s := After(beh, Start(capacity, chan, open, w), ls);
      && !Draining(s.pc) && !s.pc.Crashed? && s.ch.counter == 0
      && (forall tid :: tid in s.ch.senders ==> !s.ch.senders[tid].Sending?)
    ensures
      var s := After(beh, Start(capacity, chan, open, w), ls);
      && s.ch.queue == [] && |s.past.ran| == |s.ch.pushed|
      && RemoteCodes(s.past.log) == Codes(s.ch.pushed)
      && (forall k :: 0 <= k < |s.ch.pushed| && s.ch.pushed[k].call.Some? ==>
            && s.ch.pushed[k].call.value in s.ch.replies
            && s.past.ran[k] < |s.past.log|
            && AnswerAt(beh, Fresh(capacity, chan, open, w), s.past.log, s.past.ran[k])
               == Some(s.ch.replies[s.ch.pushed[k].call.value]))
  {
    var m0 := Fresh<T, W>(capacity, chan, open, w);
    StartIsOrderly<T, W, V>(beh, capacity, chan, open, w);
    RunIsOrderly(beh, m0, Start(capacity, chan, open, w), ls);
    var s := After(beh, Start(capacity, chan, open, w), ls);
    assert s.ch.pushed[..|s.past.ran|] == s.ch.pushed;
    forall k | 0 <= k < |s.ch.pushed| && s.ch.pushed[k].call.Some?
      ensures s.ch.pushed[k].call.value in s.ch.replies && s.past.ran[k] < |s.past.log|
      ensures AnswerAt(beh, m0, s.past.log, s.past.ran[k]) == Some(s.ch.replies[s.ch.pushed[k].call.value])
    {
      assert k < Handled(s) && Settled(beh, m0, s, k);
    }
  }

  /** In this run the world outside never acts while a callback or closure is under way. */
  ghost predicate QuietOutside<T, W, V>(beh: Behaviour<T, W>, s: Sys<T, W, V>, ls: seq<Label<T, W, V>>)
    requires Valid(beh, s, ls)
    decreases |ls|
  {
    ls == [] || (!Interrupts(s, ls[0]) && QuietOutside(beh, Next(beh, s, ls[0]), ls[1..]))
  }

  ghost predicate Uninterrupted<T, W, V>(log: seq<Item<T, W, V>>) {
    forall p :: 0 <= p < |log| ==> Trail(log[p]) == []
  }

  lemma StepStaysUninterrupted<T(!new), W(!new), V(!new)>(
      beh: Behaviour<T, W>, m0: Manager<T, W>, s: Sys<T, W, V>, l: Label<T, W, V>)
    requires Tracked(beh, m0, s) && Enabled(s, l) && !Interrupts(s, l) && Uninterrupted(s.past.log)
    ensures Uninterrupted(Next(beh, s, l).past.log)
  {
    StepNotes(beh, s, l);
    assert Uninterrupted(Noted(s, l));
  }

  lemma {:induction false} QuietRunIsUninterrupted<T(!new), W(!new), V(!new)>(
      beh: Behaviour<T, W>, m0: Manager<T, W>, s: Sys<T, W, V>, ls: seq<Label<T, W, V>>)
    requires Sequential(beh, m0, s) && Valid(beh, s, ls) && QuietOutside(beh, s, ls) && Uninterrupted(s.past.log)
    ensures Uninterrupted(After(beh, s, ls).past.log)
    decreases |ls|
  {
    if ls != [] {
      StepStaysUninterrupted(beh, m0, s, ls[0]);
      StepIsSequential(beh, m0, s, ls[0]);
      QuietRunIsUninterrupted(beh, m0, Next(beh, s, ls[0]), ls[1..]);
    }
  }

  /** And then every callback and closure of the sequential run is executed in one piece: what
      it does, and its result, are those of the whole run of it from where it starts. */
  lemma QuietRunIsWhole<T(!new), W(!new), V(!new)>(
      beh: Behaviour<T, W>, capacity: nat, chan: RawFd, open: set<RawFd>, w: W, ls: seq<Label<T, W, V>>, p: nat)
    requires chan >= 0 && Valid(beh, Start(capacity, chan, open, w), ls)
    requires QuietOutside(beh, Start(capacity, chan, open, w), ls)
    requires p < |After(beh, Start(capacity, chan, open, w), ls).past.log|
    ensures
      var log := After(beh, Start(capacity, chan, open, w), ls).past.log;
      var m := Replay(beh, Fresh(capacity, chan, open, w), log[..p]);
      && (log[p].Entry? && log[p].i < |m.ep.ready| ==> ReplayItem(beh, m, log[p]) == VisitEntry(beh, m, log[p].i).0)
      && (log[p].Executed? ==>
            && ReplayItem(beh, m, log[p]) == RunClosure(beh, m, log[p].code(m.world), []).0
            && AnswerAt(beh, Fresh(capacity, chan, open, w), log, p) == RunClosure(beh, m, log[p].code(m.world), []).1)
  {
    StartIsOrderly<T, W, V>(beh, capacity, chan, open, w);
    QuietRunIsUninterrupted(beh, Fresh(capacity, chan, open, w), Start(capacity, chan, open, w), ls);
    var log := After(beh, Start(capacity, chan, open, w), ls).past.log;
    var m := Replay(beh, Fresh(capacity, chan, open, w), log[..p]);
    if log[p].Entry? && log[p].i < |m.ep.ready| {
      UninterruptedEntryIsWhole<T, W, V>(beh, m, log[p].i);
    } else if log[p].Executed? {
      UninterruptedClosureIsWhole(beh, m, log[p].code, log[p].remote);
    }
  }

  /** What bracketing says of any item of the log. */
  lemma {:induction false} BracketedAt<T, W, V>(log: seq<Item<T, W, V>>, p: nat)
    requires Bracketed(log) && p < |log|
    ensures MayFollow(OpenBatch(log[..p]), log[p])
    decreases |log|
  {
    if p < |log| - 1 {
      BracketedAt(log[..|log| - 1], p);
      assert log[..|log| - 1][..p] == log[..p];
    }
  }
}
