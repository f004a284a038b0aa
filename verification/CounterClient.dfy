// `CounterSubscriberWithData`, the subscriber of the regression test for descriptor reuse:
// when told to, it removes and re-adds all its descriptors in the middle of a batch
// (src/utilities/subscribers.rs, tests/regressions.rs).

module CounterClient {
  import opened EventData
  import opened Index
  import opened Dispatch
  import opened Closures
  import Protocol

  /** The subscriber's fields: three eventfds with a counter each, the first of its three
      consecutive data, and the flag. `failed` means that one of its calls panicked. */
  datatype Counters = Counters(
    fd1: RawFd, fd2: RawFd, fd3: RawFd,
    counter1: nat, counter2: nat, counter3: nat,
    firstData: U32, toggle: bool, failed: bool)

  /** `Events::with_data(&counter_k.event_fd, first_data + (k - 1), EventSet::IN)`; nothing if
      an addition overflows. */
  function Interest(firstData: U32, fd: RawFd, offset: nat): Option<EpollEvent> {
    if firstData + offset < TWO_32 then WithDataRaw(fd, firstData + offset, IN) else None
  }

  function Adding(e: Option<EpollEvent>): Option<Op> {
    if e.Some? then Some(OpAdd(e.value)) else None
  }

  function Removing(e: Option<EpollEvent>): Option<Op> {
    if e.Some? then Some(OpRemove(e.value)) else None
  }

  function AddAll(s: Counters): seq<Option<Op>> {
    [Adding(Interest(s.firstData, s.fd1, 0)),
     Adding(Interest(s.firstData, s.fd2, 1)),
     Adding(Interest(s.firstData, s.fd3, 2))]
  }

  function RemoveOwn(s: Counters): seq<Option<Op>> {
    [Removing(Interest(s.firstData, s.fd1, 0)),
     Removing(Interest(s.firstData, s.fd2, 1)),
     Removing(Interest(s.firstData, s.fd3, 2))]
  }

  /** The operations of `process` in order; a missing one is a panic at that point. */
  function Script(s: Counters, ev: EpollEvent): seq<Option<Op>> {
    (if s.toggle then RemoveOwn(s) + AddAll(s) else []) + (if ev.events == HANG_UP then [Some(OpRemove(ev))] else [])
  }

  predicate AllOk(h: seq<Result>) {
    forall r :: r in h ==> r == Ok
  }

  /** Every result is passed to `expect`, so an error stops the program. */
  function Following<R>(script: seq<Option<Op>>, outcome: bool -> R): Program<R> {
    Program((h: seq<Result>) => if |h| < |script| && AllOk(h) then script[|h|] else None,
            (h: seq<Result>) => outcome(|h| == |script| && AllOk(h)),
            |script|)
  }

  /** The match on the event set, after the registrations. */
  function Count(s: Counters, ev: EpollEvent): Counters {
    if ev.events == IN then
      if Data(ev) < s.firstData then s.(failed := true)
      else if Data(ev) - s.firstData == 0 then s.(counter1 := s.counter1 + 1)
      else if Data(ev) - s.firstData == 1 then s.(counter2 := s.counter2 + 1)
      else if Data(ev) - s.firstData == 2 then s.(counter3 := s.counter3 + 1)
      else s
    else if ev.events == HANG_UP then s.(failed := true)
    else s
  }

  function AfterProcess(s: Counters, ev: EpollEvent, ok: bool): Counters {
    if ok then Count(s.(toggle := false), ev) else s.(toggle := false, failed := true)
  }

  function AfterInit(s: Counters, ok: bool): Counters {
    if ok then s else s.(failed := true)
  }

  /** `process`, with the fields it leaves handed to `done`. */
  function Process<R>(s: Counters, ev: EpollEvent, done: Counters -> R): Program<R> {
    Following(Script(s, ev), (ok: bool) => done(AfterProcess(s, ev, ok)))
  }

  function Init<R>(s: Counters, done: Counters -> R): Program<R> {
    Following(AddAll(s), (ok: bool) => done(AfterInit(s, ok)))
  }

  lemma ProcessEnds<R>(s: Counters, ev: EpollEvent, done: Counters -> R, h: seq<Result>)
    ensures Process(s, ev, done).outcome(h) == done(AfterProcess(s, ev, |h| == |Script(s, ev)| && AllOk(h)))
  {
    var ok := |h| == |Script(s, ev)| && AllOk(h);
    var outcome := (ok: bool) => done(AfterProcess(s, ev, ok));
    assert Process(s, ev, done).outcome(h) == outcome(ok);
  }

  lemma InitEnds<R>(s: Counters, done: Counters -> R, h: seq<Result>)
    ensures Init(s, done).outcome(h) == done(AfterInit(s, |h| == |AddAll(s)| && AllOk(h)))
  {
    var ok := |h| == |AddAll(s)| && AllOk(h);
    var outcome := (ok: bool) => done(AfterInit(s, ok));
    assert Init(s, done).outcome(h) == outcome(ok);
  }

  /** A manager serves subscribers of every kind: this one's, and any others. */
  datatype Member<+U> = Counting(s: Counters) | Foreign(u: U)

  /** The subscriber modelled here behaves as it does; `others` says how the rest do. */
  function Client<U, W>(others: Behaviour<Member<U>, W>): Behaviour<Member<U>, W> {
    Behaviour(
      (t: Member<U>, w: W) => if t.Counting? then Init(t.s, (s: Counters) => (Counting(s), w)) else others.init(t, w),
      (t: Member<U>, w: W, ev: EpollEvent) =>
        if t.Counting? then Process(t.s, ev, (s: Counters) => (Counting(s), w)) else others.process(t, w, ev))
  }

  // ---------- its registrations ----------

  /** The three events that a subscriber registers. */
  datatype Trio = Trio(e1: EpollEvent, e2: EpollEvent, e3: EpollEvent)

  function Fds(t: Trio): set<RawFd> {
    {Fd(t.e1), Fd(t.e2), Fd(t.e3)}
  }

  predicate Separate(t: Trio, chan: RawFd) {
    && Fd(t.e1) != Fd(t.e2) && Fd(t.e1) != Fd(t.e3) && Fd(t.e2) != Fd(t.e3)
    && Fd(t.e1) != chan && Fd(t.e2) != chan && Fd(t.e3) != chan
  }

  predicate Has(w: Wrapper, id: U64, e: EpollEvent) {
    && Fd(e) in w.dispatch && w.dispatch[Fd(e)] == id
    && Fd(e) in w.kernel.interest && w.kernel.interest[Fd(e)] == e
  }

  predicate Lacks(w: Wrapper, e: EpollEvent) {
    Fd(e) !in w.dispatch && Fd(e) !in w.kernel.interest && Fd(e) in w.kernel.open
  }

  /** Subscriber `id` is registered for exactly these three events. */
  ghost predicate Held(w: Wrapper, id: U64, t: Trio) {
    && Has(w, id, t.e1) && Has(w, id, t.e2) && Has(w, id, t.e3)
    && (forall fd :: fd in w.dispatch && w.dispatch[fd] == id ==> fd in {Fd(t.e1), Fd(t.e2), Fd(t.e3)})
  }

  /** It is registered for none, and could be for these. */
  ghost predicate Free(w: Wrapper, id: U64, t: Trio) {
    && Lacks(w, t.e1) && Lacks(w, t.e2) && Lacks(w, t.e3)
    && (forall fd :: fd in w.dispatch ==> w.dispatch[fd] != id)
  }

  predicate Dropped(w: Wrapper, w1: Wrapper, e: EpollEvent) {
    w1.dispatch == w.dispatch - {Fd(e)} && w1.kernel == Kernel(w.kernel.interest - {Fd(e)}, w.kernel.open)
  }

  predicate Taken(w: Wrapper, w1: Wrapper, id: U64, e: EpollEvent) {
    w1.dispatch == w.dispatch[Fd(e) := id] && w1.kernel == Kernel(w.kernel.interest[Fd(e) := e], w.kernel.open)
  }

  lemma RemoveOne(w: Wrapper, id: U64, e: EpollEvent, chan: RawFd)
    requires Indexed(w, chan) && Fd(e) != chan && Has(w, id, e)
    ensures
      var (w1, res) := Apply(w, id, OpRemove(e));
      res == Ok && Indexed(w1, chan) && Dropped(w, w1, e)
  {
    ApplyKeepsIndexed(w, chan, id, OpRemove(e));
  }

  lemma AddOne(w: Wrapper, id: U64, e: EpollEvent, chan: RawFd)
    requires Indexed(w, chan) && Fd(e) != chan && Lacks(w, e)
    ensures
      var (w1, res) := Apply(w, id, OpAdd(e));
      res == Ok && Indexed(w1, chan) && Taken(w, w1, id, e)
  {
    ApplyKeepsIndexed(w, chan, id, OpAdd(e));
  }

  lemma DroppingKeepsOthers(w: Wrapper, w1: Wrapper, id: U64, e: EpollEvent, other: EpollEvent)
    requires Dropped(w, w1, e) && Has(w, id, other) && Fd(e) != Fd(other)
    ensures Has(w1, id, other)
  {
  }

  lemma TakingKeepsOthers(w: Wrapper, w1: Wrapper, id: U64, e: EpollEvent, other: EpollEvent)
    requires Taken(w, w1, id, e) && Lacks(w, other) && Fd(e) != Fd(other)
    ensures Lacks(w1, other)
  {
  }

  lemma AllDropped(w: Wrapper, w1: Wrapper, w2: Wrapper, w3: Wrapper, id: U64, t: Trio, chan: RawFd)
    requires Indexed(w, chan) && Separate(t, chan) && Held(w, id, t)
    requires Dropped(w, w1, t.e1) && Dropped(w1, w2, t.e2) && Dropped(w2, w3, t.e3)
    ensures Free(w3, id, t)
  {
  }

  lemma AllTaken(w: Wrapper, w1: Wrapper, w2: Wrapper, w3: Wrapper, id: U64, t: Trio, chan: RawFd)
    requires Separate(t, chan) && Free(w, id, t)
    requires Taken(w, w1, id, t.e1) && Taken(w1, w2, id, t.e2) && Taken(w2, w3, id, t.e3)
    ensures Held(w3, id, t)
  {
  }

  /** A list of operations that all succeed, and where it leads. */
  ghost predicate Succeeds(w: Wrapper, id: U64, ops: seq<Op>)
    decreases |ops|
  {
    ops == [] || (Apply(w, id, ops[0]).1 == Ok && Succeeds(Apply(w, id, ops[0]).0, id, ops[1..]))
  }

  ghost function ApplyAll(w: Wrapper, id: U64, ops: seq<Op>): Wrapper
    decreases |ops|
  {
    if ops == [] then w else ApplyAll(Apply(w, id, ops[0]).0, id, ops[1..])
  }

  lemma {:induction false} SucceedsThen(w: Wrapper, id: U64, a: seq<Op>, b: seq<Op>)
    requires Succeeds(w, id, a) && Succeeds(ApplyAll(w, id, a), id, b)
    ensures Succeeds(w, id, a + b) && ApplyAll(w, id, a + b) == ApplyAll(ApplyAll(w, id, a), id, b)
    decreases |a|
  {
    if a == [] {
      assert a + b == b;
    } else {
      assert (a + b)[1..] == a[1..] + b;
      SucceedsThen(Apply(w, id, a[0]).0, id, a[1..], b);
    }
  }

  lemma SucceedsThree(w: Wrapper, id: U64, a: Op, b: Op, c: Op)
    requires
      var (w1, r1) := Apply(w, id, a);
      var (w2, r2) := Apply(w1, id, b);
      var (w3, r3) := Apply(w2, id, c);
      r1 == r2 == r3 == Ok
    ensures Succeeds(w, id, [a, b, c])
    ensures ApplyAll(w, id, [a, b, c]) == Apply(Apply(Apply(w, id, a).0, id, b).0, id, c).0
  {
    var w1 := Apply(w, id, a).0;
    var w2 := Apply(w1, id, b).0;
    assert [a, b, c][1..] == [b, c] && [b, c][1..] == [c] && [c][1..] == [];
    var w3 := Apply(w2, id, c).0;
    assert Succeeds(w3, id, []) && ApplyAll(w3, id, []) == w3;
    assert Succeeds(w2, id, [c]) && ApplyAll(w2, id, [c]) == w3;
    assert Succeeds(w1, id, [b, c]) && ApplyAll(w1, id, [b, c]) == w3;
  }

  function RemoveOps(t: Trio): seq<Op> {
    [OpRemove(t.e1), OpRemove(t.e2), OpRemove(t.e3)]
  }

  function AddOps(t: Trio): seq<Op> {
    [OpAdd(t.e1), OpAdd(t.e2), OpAdd(t.e3)]
  }

  lemma RemovalsSucceed(w: Wrapper, id: U64, t: Trio, chan: RawFd)
    requires Indexed(w, chan) && Separate(t, chan) && Held(w, id, t)
    ensures Succeeds(w, id, RemoveOps(t))
    ensures Indexed(ApplyAll(w, id, RemoveOps(t)), chan) && Free(ApplyAll(w, id, RemoveOps(t)), id, t)
  {
    var w1 := Apply(w, id, OpRemove(t.e1)).0;
    var w2 := Apply(w1, id, OpRemove(t.e2)).0;
    var w3 := Apply(w2, id, OpRemove(t.e3)).0;
    RemoveOne(w, id, t.e1, chan);
    DroppingKeepsOthers(w, w1, id, t.e1, t.e2);
    DroppingKeepsOthers(w, w1, id, t.e1, t.e3);
    RemoveOne(w1, id, t.e2, chan);
    DroppingKeepsOthers(w1, w2, id, t.e2, t.e3);
    RemoveOne(w2, id, t.e3, chan);
    AllDropped(w, w1, w2, w3, id, t, chan);
    SucceedsThree(w, id, OpRemove(t.e1), OpRemove(t.e2), OpRemove(t.e3));
  }

  lemma AdditionsSucceed(w: Wrapper, id: U64, t: Trio, chan: RawFd)
    requires Indexed(w, chan) && Separate(t, chan) && Free(w, id, t)
    ensures Succeeds(w, id, AddOps(t))
    ensures Indexed(ApplyAll(w, id, AddOps(t)), chan) && Held(ApplyAll(w, id, AddOps(t)), id, t)
  {
    var w1 := Apply(w, id, OpAdd(t.e1)).0;
    var w2 := Apply(w1, id, OpAdd(t.e2)).0;
    var w3 := Apply(w2, id, OpAdd(t.e3)).0;
    AddOne(w, id, t.e1, chan);
    TakingKeepsOthers(w, w1, id, t.e1, t.e2);
    TakingKeepsOthers(w, w1, id, t.e1, t.e3);
    AddOne(w1, id, t.e2, chan);
    TakingKeepsOthers(w1, w2, id, t.e2, t.e3);
    AddOne(w2, id, t.e3, chan);
    AllTaken(w, w1, w2, w3, id, t, chan);
    SucceedsThree(w, id, OpAdd(t.e1), OpAdd(t.e2), OpAdd(t.e3));
  }

  lemma ReRegistrationSucceeds(w: Wrapper, id: U64, t: Trio, chan: RawFd)
    requires Indexed(w, chan) && Separate(t, chan) && Held(w, id, t)
    ensures Succeeds(w, id, RemoveOps(t) + AddOps(t))
    ensures var w' := ApplyAll(w, id, RemoveOps(t) + AddOps(t)); Indexed(w', chan) && Held(w', id, t)
  {
    RemovalsSucceed(w, id, t, chan);
    AdditionsSucceed(ApplyAll(w, id, RemoveOps(t)), id, t, chan);
    SucceedsThen(w, id, RemoveOps(t), AddOps(t));
  }

  lemma OneStep<R>(w: Wrapper, id: U64, p: Program<R>, h: seq<Result>, op: Op)
    requires !p.Stopped(h) && p.Next(h) == op
    ensures
      var (w1, res) := Apply(w, id, op);
      && Run(w, id, p, h).w == Run(w1, id, p, h + [res]).w
      && Run(w, id, p, h).history == Run(w1, id, p, h + [res]).history
      && Run(w, id, p, h).log == [Done(id, op, res)] + Run(w1, id, p, h + [res]).log
  {
  }

  lemma AllAreLogged(id: U64, ops: seq<Op>, rest: seq<Done>)
    requires ops != [] && forall i :: 0 <= i < |ops[1..]| ==> Done(id, ops[1..][i], Ok) in rest
    ensures forall i :: 0 <= i < |ops| ==> Done(id, ops[i], Ok) in [Done(id, ops[0], Ok)] + rest
  {
    forall i | 0 <= i < |ops| ensures Done(id, ops[i], Ok) in [Done(id, ops[0], Ok)] + rest {
      if i > 0 {
        assert ops[i] == ops[1..][i - 1];
      }
    }
  }

  /** One operation of a script that succeeds. */
  lemma FollowOne<R>(w: Wrapper, id: U64, script: seq<Option<Op>>, outcome: bool -> R, h: seq<Result>, op: Op)
    requires AllOk(h) && |h| < |script| && script[|h|] == Some(op) && Apply(w, id, op).1 == Ok
    ensures
      var p := Following(script, outcome);
      var w1 := Apply(w, id, op).0;
      && AllOk(h + [Ok])
      && Run(w, id, p, h).w == Run(w1, id, p, h + [Ok]).w
      && Run(w, id, p, h).history == Run(w1, id, p, h + [Ok]).history
      && Run(w, id, p, h).log == [Done(id, op, Ok)] + Run(w1, id, p, h + [Ok]).log
  {
    OneStep(w, id, Following(script, outcome), h, op);
  }

  /** From position `k` on, the script is these operations. */
  ghost predicate Scripted(script: seq<Option<Op>>, k: nat, ops: seq<Op>) {
    k + |ops| == |script| && forall i :: 0 <= i < |ops| ==> script[k + i] == Some(ops[i])
  }

  lemma ScriptedNext(script: seq<Option<Op>>, k: nat, ops: seq<Op>)
    requires Scripted(script, k, ops) && ops != []
    ensures script[k] == Some(ops[0]) && Scripted(script, k + 1, ops[1..])
  {
    assert script[k + 0] == Some(ops[0]);
    forall i | 0 <= i < |ops[1..]| ensures script[k + 1 + i] == Some(ops[1..][i]) {
      assert script[k + (i + 1)] == Some(ops[i + 1]);
    }
  }

  lemma {:induction false} FollowScript<R>(
      w: Wrapper, id: U64, script: seq<Option<Op>>, outcome: bool -> R, h: seq<Result>, ops: seq<Op>)
    requires AllOk(h) && Scripted(script, |h|, ops) && Succeeds(w, id, ops)
    ensures
      var r := Run(w, id, Following(script, outcome), h);
      && r.w == ApplyAll(w, id, ops) && |r.history| == |script| && AllOk(r.history)
      && (forall i :: 0 <= i < |ops| ==> Done(id, ops[i], Ok) in r.log)
    decreases |ops|
  {
    if ops != [] {
      var w1 := Apply(w, id, ops[0]).0;
      ScriptedNext(script, |h|, ops);
      FollowOne(w, id, script, outcome, h, ops[0]);
      FollowScript(w1, id, script, outcome, h + [Ok], ops[1..]);
      AllAreLogged(id, ops, Run(w1, id, Following(script, outcome), h + [Ok]).log);
    }
  }

  /** A program that follows a script whose operations all succeed gets to its end. */
  lemma FollowToTheEnd<R>(
      w: Wrapper, id: U64, script: seq<Option<Op>>, outcome: bool -> R, ops: seq<Op>)
    requires |ops| == |script| && Succeeds(w, id, ops)
    requires forall i :: 0 <= i < |ops| ==> script[i] == Some(ops[i])
    ensures
      var r := Run(w, id, Following(script, outcome), []);
      && r.w == ApplyAll(w, id, ops) && |r.history| == |script| && AllOk(r.history)
      && (forall i :: 0 <= i < |ops| ==> Done(id, ops[i], Ok) in r.log)
  {
    FollowScript(w, id, script, outcome, [], ops);
  }

  /** What a subscriber registers; its data are consecutive and its descriptors its own. */
  ghost predicate Registers(s: Counters, t: Trio) {
    && Interest(s.firstData, s.fd1, 0) == Some(t.e1) && Interest(s.firstData, s.fd2, 1) == Some(t.e2)
    && Interest(s.firstData, s.fd3, 2) == Some(t.e3)
    && Fd(t.e1) == s.fd1 && Fd(t.e2) == s.fd2 && Fd(t.e3) == s.fd3
    && Data(t.e1) == s.firstData && Data(t.e2) == s.firstData + 1 && Data(t.e3) == s.firstData + 2
  }

  /** Distinct descriptors of open files, and data that fit in 32 bits. */
  predicate WellFormed(s: Counters, chan: RawFd) {
    && 0 <= s.fd1 && 0 <= s.fd2 && 0 <= s.fd3
    && s.fd1 != s.fd2 && s.fd1 != s.fd3 && s.fd2 != s.fd3
    && s.fd1 != chan && s.fd2 != chan && s.fd3 != chan
    && s.firstData <= TWO_32 - 3
  }

  lemma TrioOf(s: Counters, chan: RawFd) returns (t: Trio)
    requires WellFormed(s, chan)
    ensures Registers(s, t) && Separate(t, chan)
  {
    PackReadsBack(s.fd1, s.firstData, IN);
    PackReadsBack(s.fd2, s.firstData + 1, IN);
    PackReadsBack(s.fd3, s.firstData + 2, IN);
    t := Trio(Interest(s.firstData, s.fd1, 0).value, Interest(s.firstData, s.fd2, 1).value,
              Interest(s.firstData, s.fd3, 2).value);
  }

  /** `init` on three open descriptors that nobody uses succeeds and registers them. */
  lemma InitRegisters<R>(w: Wrapper, id: U64, s: Counters, t: Trio, chan: RawFd, done: Counters -> R)
    requires Indexed(w, chan) && Registers(s, t) && Separate(t, chan) && Free(w, id, t)
    ensures
      var p := Init(s, done);
      var r := Run(w, id, p, []);
      Indexed(r.w, chan) && Held(r.w, id, t) && p.outcome(r.history) == done(s)
  {
    AdditionsSucceed(w, id, t, chan);
    FollowToTheEnd(w, id, AddAll(s), (ok: bool) => done(AfterInit(s, ok)), AddOps(t));
    InitEnds(s, done, Run(w, id, Init(s, done), []).history);
  }

  lemma ToggleScript(s: Counters, t: Trio, ev: EpollEvent)
    requires Registers(s, t) && s.toggle && ev.events == IN
    ensures |Script(s, ev)| == 6
    ensures forall i :: 0 <= i < 6 ==> Script(s, ev)[i] == Some((RemoveOps(t) + AddOps(t))[i])
  {
  }

  /** With the flag set, `process` removes and re-adds all three without an error, and then
      counts its event. */
  lemma ToggleReRegisters<R>(
      w: Wrapper, id: U64, s: Counters, t: Trio, chan: RawFd, ev: EpollEvent, done: Counters -> R)
    requires Indexed(w, chan) && Registers(s, t) && Separate(t, chan) && Held(w, id, t) && s.toggle && ev.events == IN
    ensures
      var p := Process(s, ev, done);
      var r := Run(w, id, p, []);
      && Indexed(r.w, chan) && Held(r.w, id, t)
      && p.outcome(r.history) == done(Count(s.(toggle := false), ev))
      && Fds(t) <= RemovedIn(r.log)
  {
    var ops := RemoveOps(t) + AddOps(t);
    ReRegistrationSucceeds(w, id, t, chan);
    ToggleScript(s, t, ev);
    FollowToTheEnd(w, id, Script(s, ev), (ok: bool) => done(AfterProcess(s, ev, ok)), ops);
    ProcessEnds(s, ev, done, Run(w, id, Process(s, ev, done), []).history);
    var log := Run(w, id, Process(s, ev, done), []).log;
    assert Done(id, ops[0], Ok) in log && Done(id, ops[1], Ok) in log && Done(id, ops[2], Ok) in log;
  }

  // ---------- its events ----------

  /** A subscriber in good standing: registered for its own descriptors, with no failure. */
  ghost predicate Standing<U, W>(m: Manager<Member<U>, W>, id: U64, t: Trio) {
    && id in m.subscribers && m.subscribers[id].Counting?
    && !m.subscribers[id].s.failed && Registers(m.subscribers[id].s, t)
    && Separate(t, m.chan) && Held(m.ep, id, t)
  }

  /** `s` with an event on descriptor `fd` counted, and the flag spent. */
  function CountedOn(s: Counters, fd: RawFd): Counters {
    s.(toggle := false,
       counter1 := s.counter1 + (if fd == s.fd1 then 1 else 0),
       counter2 := s.counter2 + (if fd == s.fd2 then 1 else 0),
       counter3 := s.counter3 + (if fd == s.fd3 then 1 else 0))
  }

  /** An IN event that carries what was registered for its descriptor. */
  predicate AsRegistered(ev: EpollEvent, t: Trio) {
    ev.events == IN && (ev.data == t.e1.data || ev.data == t.e2.data || ev.data == t.e3.data)
  }

  lemma CountIsCountedOn(s: Counters, t: Trio, ev: EpollEvent, chan: RawFd)
    requires Registers(s, t) && Separate(t, chan) && AsRegistered(ev, t)
    ensures Count(s.(toggle := false), ev) == CountedOn(s, Fd(ev))
    ensures Registers(CountedOn(s, Fd(ev)), t)
  {
  }

  /** Without the flag, `process` makes no call and counts its event where it belongs. */
  lemma CountsWhereItBelongs<R>(
      w: Wrapper, id: U64, s: Counters, t: Trio, ev: EpollEvent, chan: RawFd, done: Counters -> R)
    requires Registers(s, t) && Separate(t, chan) && AsRegistered(ev, t) && !s.toggle
    ensures
      var p := Process(s, ev, done);
      Run(w, id, p, []) == Ran(w, [], []) && p.outcome([]) == done(CountedOn(s, Fd(ev)))
  {
    assert Script(s, ev) == [] && AllOk([]);
    ProcessEnds(s, ev, done, []);
    CountIsCountedOn(s, t, ev, chan);
  }

  // ---------- the other subscribers ----------

  /** The operation takes one of these descriptors away or changes what it is registered with. */
  predicate Touches(d: Done, fds: set<RawFd>) {
    d.res.Ok? &&
    match d.op
    case OpAdd(_) => false
    case OpModify(ev) => Fd(ev) in fds
    case OpRemove(ev) => Fd(ev) in fds
    case Open(_) => false
    case Close(fd) => fd in fds
  }

  /** Nobody but `id` does that. */
  ghost predicate Undisturbed(v: Visit, id: U64, fds: set<RawFd>) {
    v.Called? && v.id != id ==> forall d :: d in v.log ==> !Touches(d, fds)
  }

  ghost predicate AllUndisturbed(vs: seq<Visit>, id: U64, fds: set<RawFd>) {
    forall v :: v in vs ==> Undisturbed(v, id, fds)
  }

  lemma OthersKeepHeld(w: Wrapper, chan: RawFd, id: U64, t: Trio, other: U64, op: Op)
    requires Indexed(w, chan) && Held(w, id, t) && other != id
    requires !Touches(Done(other, op, Apply(w, other, op).1), Fds(t))
    ensures Held(Apply(w, other, op).0, id, t)
  {
  }

  /** Whatever other subscribers do, short of touching its descriptors, they leave the
      registrations of `id` as they are. */
  lemma {:induction false} RunKeepsHeld<R>(
      w: Wrapper, chan: RawFd, id: U64, t: Trio, other: U64, p: Program<R>, h: seq<Result>)
    requires Indexed(w, chan) && Held(w, id, t) && other != id
    requires PoliteLog(chan, Run(w, other, p, h).log)
    requires forall d :: d in Run(w, other, p, h).log ==> !Touches(d, Fds(t))
    ensures Held(Run(w, other, p, h).w, id, t) && RemovedIn(Run(w, other, p, h).log) !! Fds(t)
    decreases p.budget - |h|
  {
    if !p.Stopped(h) {
      var op := p.Next(h);
      var (w1, res) := Apply(w, other, op);
      OneStep(w, other, p, h, op);
      assert Run(w, other, p, h).log[0] == Done(other, op, res);
      ApplyKeepsIndexed(w, chan, other, op);
      OthersKeepHeld(w, chan, id, t, other, op);
      RunKeepsHeld(w1, chan, id, t, other, p, h + [res]);
    }
  }

  // ---------- one visit ----------

  /** What holds before each entry of a batch that `owner` and `t` describe as of the poll. */
  ghost predicate Walking<U(!new), W(!new)>(
      m: Manager<Member<U>, W>, batch: seq<EpollEvent>, i: nat, owner: map<RawFd, U64>, gone: set<RawFd>, id: U64,
      t: Trio) {
    && Inv(m) && i <= |batch| && Pending(m.ep, m.chan, batch, i, owner, gone)
    && Standing(m, id, t) && OwnEvents(batch, owner, id, t)
  }

  /** Its polled events are those on its descriptors, and carry what it registered. */
  ghost predicate OwnEvents(batch: seq<EpollEvent>, owner: map<RawFd, U64>, id: U64, t: Trio) {
    forall j :: 0 <= j < |batch| ==>
                  && (Fd(batch[j]) in Fds(t) ==> AsRegistered(batch[j], t))
                  && (Fd(batch[j]) in owner && owner[Fd(batch[j])] == id <==> Fd(batch[j]) in Fds(t))
  }

  /** Entry `i` is an event of `id` that has not been removed. */
  predicate Mine(batch: seq<EpollEvent>, i: nat, gone: set<RawFd>, t: Trio)
    requires i < |batch|
  {
    Fd(batch[i]) in Fds(t) && Fd(batch[i]) !in gone
  }

  lemma VisitIs<U(!new), W(!new)>(others: Behaviour<Member<U>, W>, m: Manager<Member<U>, W>, i: nat, id: U64)
    requires i < |m.ep.ready| && Look(m, i) == ToProcess(id)
    ensures
      var p := Client(others).process(m.subscribers[id], m.world, m.ep.ready[i]);
      var r := Run(m.ep, id, p, []);
      VisitEntry(Client(others), m, i) ==
      (m.(ep := r.w, subscribers := m.subscribers[id := p.outcome(r.history).0], world := p.outcome(r.history).1),
       Called(id, m.ep.ready[i], r.log))
  {
  }

  lemma OwnVisit<U(!new), W(!new)>(others: Behaviour<Member<U>, W>, m: Manager<Member<U>, W>, i: nat, id: U64, t: Trio)
    requires Inv(m) && Standing(m, id, t) && i < |m.ep.ready| && Look(m, i) == ToProcess(id)
    requires AsRegistered(m.ep.ready[i], t)
    ensures
      var s := m.subscribers[id].s;
      var (m1, v) := VisitEntry(Client(others), m, i);
      && Standing(m1, id, t) && m1.subscribers[id] == Counting(CountedOn(s, Fd(m.ep.ready[i])))
      && (if s.toggle then Fds(t) <= RemovedBy(v) else RemovedBy(v) == {})
  {
    var s, ev, shared := m.subscribers[id].s, m.ep.ready[i], m.world;
    var done := (x: Counters) => (Member<U>.Counting(x), shared);
    VisitIs(others, m, i, id);
    CountIsCountedOn(s, t, ev, m.chan);
    assert Client(others).process(m.subscribers[id], m.world, ev) == Process(s, ev, done);
    if s.toggle {
      ToggleReRegisters(m.ep, id, s, t, m.chan, ev, done);
    } else {
      CountsWhereItBelongs(m.ep, id, s, t, ev, m.chan, done);
    }
  }

  lemma OtherVisit<U(!new), W(!new)>(
      others: Behaviour<Member<U>, W>, m: Manager<Member<U>, W>, i: nat, id: U64, t: Trio)
    requires Inv(m) && Standing(m, id, t) && i < |m.ep.ready| && Look(m, i) != ToProcess(id)
    requires PoliteVisit(m.chan, VisitEntry(Client(others), m, i).1)
    requires Undisturbed(VisitEntry(Client(others), m, i).1, id, Fds(t))
    ensures
      var (m1, v) := VisitEntry(Client(others), m, i);
      Standing(m1, id, t) && m1.subscribers[id] == m.subscribers[id] && RemovedBy(v) !! Fds(t)
  {
    if Look(m, i).ToProcess? {
      var other := Look(m, i).id;
      VisitIs(others, m, i, other);
      var p := Client(others).process(m.subscribers[other], m.world, m.ep.ready[i]);
      RunKeepsHeld(m.ep, m.chan, id, t, other, p, []);
    }
  }

  /** One iteration of the loop counts its event if it is one of `id` that still stands, and
      otherwise leaves the subscriber alone. */
  lemma VisitCounts<U(!new), W(!new)>(
      others: Behaviour<Member<U>, W>, m: Manager<Member<U>, W>, batch: seq<EpollEvent>, i: nat,
      owner: map<RawFd, U64>, gone: set<RawFd>, id: U64, t: Trio)
    requires Walking(m, batch, i, owner, gone, id, t) && i < |batch|
    requires PoliteVisit(m.chan, VisitEntry(Client(others), m, i).1)
    requires Undisturbed(VisitEntry(Client(others), m, i).1, id, Fds(t))
    ensures
      var s := m.subscribers[id].s;
      var (m1, v) := VisitEntry(Client(others), m, i);
      && !v.Failed? && m1.chan == m.chan && Walking(m1, batch, i + 1, owner, gone + RemovedBy(v), id, t)
      && m1.subscribers[id] == Counting(if Mine(batch, i, gone, t) then CountedOn(s, Fd(batch[i])) else s)
      && (if Mine(batch, i, gone, t) && s.toggle then Fds(t) <= RemovedBy(v) else RemovedBy(v) !! Fds(t))
  {
    VisitKeeps(Client(others), m, batch, i, owner, gone);
    assert Mine(batch, i, gone, t) <==> Look(m, i) == ToProcess(id);
    if Look(m, i) == ToProcess(id) {
      assert m.ep.ready[i] == batch[i];
      OwnVisit(others, m, i, id, t);
    } else {
      OtherVisit(others, m, i, id, t);
    }
  }

  // ---------- a batch ----------

  /** The visits of the rest of a batch are polite and leave `id` undisturbed. */
  ghost predicate Peaceful<U, W>(
      others: Behaviour<Member<U>, W>, m: Manager<Member<U>, W>, i: nat, n: nat, id: U64, t: Trio)
    requires i <= n <= |m.ep.ready|
  {
    var vs := DispatchFrom(Client(others), m, i, n).1;
    PoliteVisits(m.chan, vs) && AllUndisturbed(vs, id, Fds(t))
  }

  lemma PeacefulOn<U, W>(others: Behaviour<Member<U>, W>, m: Manager<Member<U>, W>, i: nat, n: nat, id: U64, t: Trio)
    requires i < n <= |m.ep.ready| && Peaceful(others, m, i, n, id, t)
    ensures
      var (m1, v) := VisitEntry(Client(others), m, i);
      && PoliteVisit(m.chan, v) && Undisturbed(v, id, Fds(t))
      && (!v.Failed? && m1.chan == m.chan ==>
            && Peaceful(others, m1, i + 1, n, id, t)
            && DispatchFrom(Client(others), m, i, n).0 == DispatchFrom(Client(others), m1, i + 1, n).0)
  {
    var (m1, v) := VisitEntry(Client(others), m, i);
    var vs := DispatchFrom(Client(others), m, i, n).1;
    assert vs[0] == v;
    if !v.Failed? {
      assert forall x :: x in DispatchFrom(Client(others), m1, i + 1, n).1 ==> x in vs;
    }
  }

  /** The descriptor of the first event of the batch that is one of these. */
  function FirstOn(batch: seq<EpollEvent>, fds: set<RawFd>): Option<RawFd> {
    if batch == [] then None
    else if Fd(batch[0]) in fds then Some(Fd(batch[0]))
    else FirstOn(batch[1..], fds)
  }

  /** How many events of the batch are on `fd`. */
  function EventsOn(batch: seq<EpollEvent>, fd: RawFd): nat {
    if batch == [] then 0 else (if Fd(batch[0]) == fd then 1 else 0) + EventsOn(batch[1..], fd)
  }

  /** `s` with all events of the batch counted. */
  function CountedAll(s: Counters, batch: seq<EpollEvent>): Counters {
    s.(counter1 := s.counter1 + EventsOn(batch, s.fd1),
       counter2 := s.counter2 + EventsOn(batch, s.fd2),
       counter3 := s.counter3 + EventsOn(batch, s.fd3))
  }

  /** Once its descriptors have been removed, a batch holds nothing more for a subscriber. */
  lemma {:induction false} NothingMoreIsCounted<U(!new), W(!new)>(
      others: Behaviour<Member<U>, W>, m: Manager<Member<U>, W>, batch: seq<EpollEvent>, i: nat,
      owner: map<RawFd, U64>, gone: set<RawFd>, id: U64, t: Trio)
    requires Walking(m, batch, i, owner, gone, id, t) && Fds(t) <= gone && Peaceful(others, m, i, |batch|, id, t)
    ensures
      var m' := DispatchFrom(Client(others), m, i, |batch|).0;
      Inv(m') && Standing(m', id, t) && m'.chan == m.chan && m'.subscribers[id] == m.subscribers[id]
    decreases |batch| - i
  {
    if i < |batch| {
      var (m1, v) := VisitEntry(Client(others), m, i);
      PeacefulOn(others, m, i, |batch|, id, t);
      VisitCounts(others, m, batch, i, owner, gone, id, t);
      NothingMoreIsCounted(others, m1, batch, i + 1, owner, gone + RemovedBy(v), id, t);
    }
  }

  lemma {:induction false} FirstIsCounted<U(!new), W(!new)>(
      others: Behaviour<Member<U>, W>, m: Manager<Member<U>, W>, batch: seq<EpollEvent>, i: nat,
      owner: map<RawFd, U64>, gone: set<RawFd>, id: U64, t: Trio)
    requires Walking(m, batch, i, owner, gone, id, t) && gone !! Fds(t) && m.subscribers[id].s.toggle
    requires Peaceful(others, m, i, |batch|, id, t)
    ensures
      var m' := DispatchFrom(Client(others), m, i, |batch|).0;
      var first := FirstOn(batch[i..], Fds(t));
      && Inv(m') && Standing(m', id, t) && m'.chan == m.chan
      && m'.subscribers[id] ==
         if first.None? then m.subscribers[id] else Counting(CountedOn(m.subscribers[id].s, first.value))
    decreases |batch| - i
  {
    if i < |batch| {
      var (m1, v) := VisitEntry(Client(others), m, i);
      PeacefulOn(others, m, i, |batch|, id, t);
      VisitCounts(others, m, batch, i, owner, gone, id, t);
      assert batch[i..][1..] == batch[i + 1..];
      if Mine(batch, i, gone, t) {
        NothingMoreIsCounted(others, m1, batch, i + 1, owner, gone + RemovedBy(v), id, t);
      } else {
        FirstIsCounted(others, m1, batch, i + 1, owner, gone + RemovedBy(v), id, t);
      }
    }
  }

  lemma CountedOneMore(s: Counters, batch: seq<EpollEvent>, i: nat, t: Trio, chan: RawFd)
    requires i < |batch| && Registers(s, t) && Separate(t, chan) && !s.toggle
    ensures
      var s1 := if Fd(batch[i]) in Fds(t) then CountedOn(s, Fd(batch[i])) else s;
      CountedAll(s, batch[i..]) == CountedAll(s1, batch[i + 1..])
  {
    assert batch[i..][1..] == batch[i + 1..];
  }

  lemma {:induction false} AllAreCounted<U(!new), W(!new)>(
      others: Behaviour<Member<U>, W>, m: Manager<Member<U>, W>, batch: seq<EpollEvent>, i: nat,
      owner: map<RawFd, U64>, gone: set<RawFd>, id: U64, t: Trio)
    requires Walking(m, batch, i, owner, gone, id, t) && gone !! Fds(t) && !m.subscribers[id].s.toggle
    requires Peaceful(others, m, i, |batch|, id, t)
    ensures
      var m' := DispatchFrom(Client(others), m, i, |batch|).0;
      && Inv(m') && Standing(m', id, t) && m'.chan == m.chan
      && m'.subscribers[id] == Counting(CountedAll(m.subscribers[id].s, batch[i..]))
    decreases |batch| - i
  {
    if i < |batch| {
      var (m1, v) := VisitEntry(Client(others), m, i);
      PeacefulOn(others, m, i, |batch|, id, t);
      VisitCounts(others, m, batch, i, owner, gone, id, t);
      CountedOneMore(m.subscribers[id].s, batch, i, t, m.chan);
      AllAreCounted(others, m1, batch, i + 1, owner, gone + RemovedBy(v), id, t);
    }
  }

  /** The events of `id` in the batch are all IN. */
  predicate OnlyIn(batch: seq<EpollEvent>, t: Trio) {
    forall j :: 0 <= j < |batch| && Fd(batch[j]) in Fds(t) ==> batch[j].events == IN
  }

  lemma PollStartsWalk<U(!new), W(!new)>(m: Manager<Member<U>, W>, id: U64, t: Trio, batch: seq<EpollEvent>)
    requires Inv(m) && Standing(m, id, t) && Polled(m.ep, m.chan, batch) && OnlyIn(batch, t)
    ensures Walking(Fill(m, batch), batch, 0, m.ep.dispatch, {}, id, t)
  {
    FilledIsPending(m, batch);
  }

  function RunBatch<U, W>(
      others: Behaviour<Member<U>, W>, m: Manager<Member<U>, W>, batch: seq<EpollEvent>
  ): (Manager<Member<U>, W>, seq<Visit>)
    requires |batch| <= |m.ep.ready|
  {
    DispatchFrom(Client(others), Fill(m, batch), 0, |batch|)
  }

  /** The visits of a batch are polite, and none of another subscriber touches what `id` has
      registered. */
  ghost predicate PeacefulBatch<U, W>(
      others: Behaviour<Member<U>, W>, m: Manager<Member<U>, W>, batch: seq<EpollEvent>, id: U64, t: Trio)
    requires |batch| <= |m.ep.ready|
  {
    PoliteVisits(m.chan, RunBatch(others, m, batch).1) && AllUndisturbed(RunBatch(others, m, batch).1, id, Fds(t))
  }

  function Total(s: Counters): nat {
    s.counter1 + s.counter2 + s.counter3
  }

  /** The regression test, for all its inputs. With the flag set, whatever the first batch holds
      besides, and in whatever order, of the subscriber's own IN events exactly one is counted:
      the first, on its counter. None of the calls in `process` panics, and all three
      descriptors are registered again. Other subscribers may be of any kind and do anything
      but touch its descriptors. */
  lemma {:induction false} FirstBatchCountsOnce<U(!new), W(!new)>(
      others: Behaviour<Member<U>, W>, m: Manager<Member<U>, W>, id: U64, t: Trio, batch: seq<EpollEvent>)
    requires Inv(m) && Standing(m, id, t) && m.subscribers[id].s.toggle
    requires Polled(m.ep, m.chan, batch) && OnlyIn(batch, t) && PeacefulBatch(others, m, batch, id, t)
    ensures
      var m' := RunBatch(others, m, batch).0;
      var s := m.subscribers[id].s;
      var first := FirstOn(batch, Fds(t));
      && Inv(m') && Standing(m', id, t)
      && m'.subscribers[id] == Counting(if first.None? then s else CountedOn(s, first.value))
      && Total(m'.subscribers[id].s) ==
         Total(s) + (if exists j :: 0 <= j < |batch| && Fd(batch[j]) in Fds(t) then 1 else 0)
  {
    PollStartsWalk(m, id, t, batch);
    FirstIsCounted(others, Fill(m, batch), batch, 0, m.ep.dispatch, {}, id, t);
    assert batch[0..] == batch;
    FirstOnIsThere(batch, Fds(t));
    if first :| FirstOn(batch, Fds(t)) == Some(first) {
      OneIsCounted(m.subscribers[id].s, t, first, m.chan);
    }
  }

  lemma OneIsCounted(s: Counters, t: Trio, fd: RawFd, chan: RawFd)
    requires Registers(s, t) && Separate(t, chan) && fd in Fds(t)
    ensures Total(CountedOn(s, fd)) == Total(s) + 1
  {
  }

  lemma {:induction false} FirstOnIsThere(batch: seq<EpollEvent>, fds: set<RawFd>)
    ensures FirstOn(batch, fds).Some? <==> exists j :: 0 <= j < |batch| && Fd(batch[j]) in fds
    ensures FirstOn(batch, fds).Some? ==> FirstOn(batch, fds).value in fds
  {
    if batch != [] {
      FirstOnIsThere(batch[1..], fds);
      if j :| 0 <= j < |batch[1..]| && Fd(batch[1..][j]) in fds {
        assert Fd(batch[j + 1]) in fds;
      }
      assert forall j :: 1 <= j < |batch| ==> batch[j] == batch[1..][j - 1];
    }
  }

  /** On every later batch each counter rises by exactly the number of events polled on its
      descriptor, whatever else is in the batch, and the subtraction `data() - first_data`
      does not underflow. */
  lemma LaterBatchCountsAll<U(!new), W(!new)>(
      others: Behaviour<Member<U>, W>, m: Manager<Member<U>, W>, id: U64, t: Trio, batch: seq<EpollEvent>)
    requires Inv(m) && Standing(m, id, t) && !m.subscribers[id].s.toggle
    requires Polled(m.ep, m.chan, batch) && OnlyIn(batch, t) && PeacefulBatch(others, m, batch, id, t)
    ensures
      var m' := RunBatch(others, m, batch).0;
      && Inv(m') && Standing(m', id, t) && m'.chan == m.chan
      && m'.subscribers[id] == Counting(CountedAll(m.subscribers[id].s, batch))
  {
    PollStartsWalk(m, id, t, batch);
    AllAreCounted(others, Fill(m, batch), batch, 0, m.ep.dispatch, {}, id, t);
    assert batch[0..] == batch;
  }

  // ---------- setting the flag ----------

  /** What `set_toggle_registry(true)` does, through the reference that `subscriber_mut` returns. */
  function SetToggle<U>(x: Member<U>): Member<U> {
    if x.Counting? then Counting(x.s.(toggle := true)) else x
  }

  /** The regression test's way: the flag is set from outside by `subscriber_mut`, and of the next
      batch exactly one event is counted. */
  lemma SetToggleCountsOnce<U(!new), W(!new)>(
      others: Behaviour<Member<U>, W>, m: Manager<Member<U>, W>, id: U64, t: Trio, batch: seq<EpollEvent>)
    requires Inv(m) && Standing(m, id, t)
    requires
      var m1 := Answer(Client(others), m, SubscriberMut(id, (x: Member<U>) => SetToggle(x))).0;
      Polled(m1.ep, m1.chan, batch) && OnlyIn(batch, t) && PeacefulBatch(others, m1, batch, id, t)
    requires exists j :: 0 <= j < |batch| && Fd(batch[j]) in Fds(t)
    ensures
      var m1 := Answer(Client(others), m, SubscriberMut(id, (x: Member<U>) => SetToggle(x))).0;
      var m' := RunBatch(others, m1, batch).0;
      && Standing(m', id, t) && !m'.subscribers[id].s.toggle
      && Total(m'.subscribers[id].s) == Total(m.subscribers[id].s) + 1
  {
    var update := (x: Member<U>) => SetToggle(x);
    var m1 := Answer(Client(others), m, SubscriberMut(id, update)).0;
    SubscriberIsUpdated(Client(others), m, id, update);
    AnswerKeepsInv(Client(others), m, SubscriberMut(id, update));
    assert m1.subscribers[id] == Counting(m.subscribers[id].s.(toggle := true));
    StandingWithToggle(m, m1, id, t);
    FirstBatchCountsOnce(others, m1, id, t, batch);
    FirstOnIsThere(batch, Fds(t));
  }

  lemma StandingWithToggle<U(!new), W(!new)>(m: Manager<Member<U>, W>, m1: Manager<Member<U>, W>, id: U64, t: Trio)
    requires Standing(m, id, t) && m1.ep == m.ep && m1.chan == m.chan
    requires id in m1.subscribers && m1.subscribers[id] == Counting(m.subscribers[id].s.(toggle := true))
    ensures Standing(m1, id, t) && Total(m1.subscribers[id].s) == Total(m.subscribers[id].s)
  {
  }

  // ---------- the other branches of `process` ----------

  /** An IN event with a datum that is not its own, if not below `first_data`, is ignored; so are
      events that are neither IN nor a hang-up. */
  lemma ForeignEventsAreIgnored<R>(w: Wrapper, id: U64, s: Counters, ev: EpollEvent, done: Counters -> R)
    requires !s.toggle && ev.events != HANG_UP
    requires ev.events == IN ==> Data(ev) >= s.firstData + 3
    ensures
      var p := Process(s, ev, done);
      Run(w, id, p, []) == Ran(w, [], []) && p.outcome([]) == done(s)
  {
    assert Script(s, ev) == [] && AllOk([]);
    ProcessEnds(s, ev, done, []);
    assert s.(toggle := false) == s;
  }

  /** A hang-up takes the descriptor out of the index, and then panics. */
  lemma HangUpCleansUp<R>(w: Wrapper, id: U64, s: Counters, ev: EpollEvent, done: Counters -> R)
    requires !s.toggle && ev.events == HANG_UP && Fd(ev) in w.kernel.interest
    ensures
      var p := Process(s, ev, done);
      var r := Run(w, id, p, []);
      && Fd(ev) !in r.w.kernel.interest && Fd(ev) !in r.w.dispatch
      && p.outcome(r.history) == done(s.(failed := true))
  {
    assert Script(s, ev) == [Some(OpRemove(ev))];
    assert Succeeds(w, id, [OpRemove(ev)]) by {
      assert Succeeds(Apply(w, id, OpRemove(ev)).0, id, []);
      assert [OpRemove(ev)][1..] == [];
    }
    FollowToTheEnd(w, id, Script(s, ev), (ok: bool) => done(AfterProcess(s, ev, ok)), [OpRemove(ev)]);
    ProcessEnds(s, ev, done, Run(w, id, Process(s, ev, done), []).history);
    assert ApplyAll(w, id, [OpRemove(ev)]) == Apply(w, id, OpRemove(ev)).0 by {
      assert [OpRemove(ev)][1..] == [];
    }
    assert s.(toggle := false) == s;
  }

  /** With the flag set, if its first descriptor cannot be removed, `process` panics there and
      then: nothing is changed and nothing counted. */
  lemma FailedRemovalPanics<R>(w: Wrapper, id: U64, s: Counters, t: Trio, ev: EpollEvent, done: Counters -> R)
    requires Registers(s, t) && s.toggle && s.fd1 !in w.kernel.interest
    ensures
      var p := Process(s, ev, done);
      var r := Run(w, id, p, []);
      r.w == w && p.outcome(r.history) == done(s.(toggle := false, failed := true))
  {
    var p := Process(s, ev, done);
    OneStep(w, id, p, [], OpRemove(t.e1));
    var h := [] + [Result.Err(Error.Epoll)];
    assert h[0] in h && !AllOk(h);
    assert p.Stopped(h);
    ProcessEnds(s, ev, done, h);
  }

  /** And if `init` cannot register its first descriptor, it panics with nothing changed. */
  lemma FailedInitPanics<R>(w: Wrapper, id: U64, s: Counters, t: Trio, done: Counters -> R)
    requires Registers(s, t)
    requires s.fd1 in w.dispatch || s.fd1 in w.kernel.interest || s.fd1 !in w.kernel.open
    ensures
      var p := Init(s, done);
      var r := Run(w, id, p, []);
      r.w == w && p.outcome(r.history) == done(s.(failed := true))
  {
    var p := Init(s, done);
    OneStep(w, id, p, [], OpAdd(t.e1));
    var h := [] + [Apply(w, id, OpAdd(t.e1)).1];
    assert h[0] in h && !AllOk(h);
    assert p.Stopped(h);
    InitEnds(s, done, h);
  }

  // ---------- when others do touch its descriptors ----------

  /** How many events on `fd` the visits handed to subscriber `id`. */
  function Handed(vs: seq<Visit>, id: U64, fd: RawFd): nat {
    if vs == [] then 0 else HandedOne(vs[0], id, fd) + Handed(vs[1..], id, fd)
  }

  function HandedOne(v: Visit, id: U64, fd: RawFd): nat {
    if v.Called? && v.id == id && Fd(v.ev) == fd then 1 else 0
  }

  /** `s` with the events counted that `vs` handed to it. */
  function Counted(s: Counters, vs: seq<Visit>, id: U64): Counters {
    s.(counter1 := s.counter1 + Handed(vs, id, s.fd1),
       counter2 := s.counter2 + Handed(vs, id, s.fd2),
       counter3 := s.counter3 + Handed(vs, id, s.fd3))
  }

  /** Less than standing: its descriptors may be gone from the index by now. */
  ghost predicate Listening<U(!new), W(!new)>(
      m: Manager<Member<U>, W>, batch: seq<EpollEvent>, i: nat, owner: map<RawFd, U64>, gone: set<RawFd>, id: U64,
      t: Trio) {
    && Inv(m) && i <= |batch| && Pending(m.ep, m.chan, batch, i, owner, gone)
    && id in m.subscribers && m.subscribers[id].Counting? && !m.subscribers[id].s.toggle
    && Registers(m.subscribers[id].s, t) && Separate(t, m.chan) && OwnEvents(batch, owner, id, t)
  }

  lemma VisitIsHeard<U(!new), W(!new)>(
      others: Behaviour<Member<U>, W>, m: Manager<Member<U>, W>, batch: seq<EpollEvent>, i: nat,
      owner: map<RawFd, U64>, gone: set<RawFd>, id: U64, t: Trio)
    requires Listening(m, batch, i, owner, gone, id, t) && i < |batch|
    requires PoliteVisit(m.chan, VisitEntry(Client(others), m, i).1)
    ensures
      var s := m.subscribers[id].s;
      var (m1, v) := VisitEntry(Client(others), m, i);
      && !v.Failed? && m1.chan == m.chan && Listening(m1, batch, i + 1, owner, gone + RemovedBy(v), id, t)
      && m1.subscribers[id] == Counting(if v.Called? && v.id == id then CountedOn(s, Fd(v.ev)) else s)
      && (v.Called? && v.id == id ==> Fd(v.ev) in Fds(t))
  {
    VisitKeeps(Client(others), m, batch, i, owner, gone);
    if Look(m, i).ToProcess? {
      VisitIs(others, m, i, Look(m, i).id);
      if Look(m, i).id == id {
        var s, shared := m.subscribers[id].s, m.world;
        CountIsCountedOn(s, t, batch[i], m.chan);
        CountsWhereItBelongs(m.ep, id, s, t, batch[i], m.chan, (x: Counters) => (Member<U>.Counting(x), shared));
      }
    }
  }

  lemma HandedOneMore(s: Counters, v: Visit, rest: seq<Visit>, id: U64, t: Trio, chan: RawFd)
    requires Registers(s, t) && Separate(t, chan) && !s.toggle && (v.Called? && v.id == id ==> Fd(v.ev) in Fds(t))
    ensures Counted(s, [v] + rest, id) ==
              Counted(if v.Called? && v.id == id then CountedOn(s, Fd(v.ev)) else s, rest, id)
  {
    assert ([v] + rest)[1..] == rest;
  }

  lemma ListenOn<U(!new), W(!new)>(
      others: Behaviour<Member<U>, W>, m: Manager<Member<U>, W>, batch: seq<EpollEvent>, i: nat,
      owner: map<RawFd, U64>, gone: set<RawFd>, id: U64, t: Trio)
    requires Listening(m, batch, i, owner, gone, id, t) && i < |batch|
    requires PoliteVisits(m.chan, DispatchFrom(Client(others), m, i, |batch|).1)
    ensures
      var (m1, v) := VisitEntry(Client(others), m, i);
      var (m', rest) := DispatchFrom(Client(others), m1, i + 1, |batch|);
      && DispatchFrom(Client(others), m, i, |batch|) == (m', [v] + rest)
      && Listening(m1, batch, i + 1, owner, gone + RemovedBy(v), id, t) && PoliteVisits(m1.chan, rest)
      && id in m1.subscribers && m1.subscribers[id].Counting?
      && Counted(m1.subscribers[id].s, rest, id) == Counted(m.subscribers[id].s, [v] + rest, id)
  {
    var (m1, v) := VisitEntry(Client(others), m, i);
    var rest := DispatchFrom(Client(others), m1, i + 1, |batch|).1;
    assert DispatchFrom(Client(others), m, i, |batch|).1[0] == v;
    VisitIsHeard(others, m, batch, i, owner, gone, id, t);
    HandedOneMore(m.subscribers[id].s, v, rest, id, t, m.chan);
    assert forall x :: x in rest ==> x in [v] + rest;
  }

  /** The dispatch from entry `i` leaves `id` with the events counted that its visits handed to it. */
  ghost predicate HandsOver<U(!new), W(!new)>(
      others: Behaviour<Member<U>, W>, m: Manager<Member<U>, W>, i: nat, n: nat, id: U64)
    requires i <= n <= |m.ep.ready| && id in m.subscribers && m.subscribers[id].Counting?
  {
    var (m', vs) := DispatchFrom(Client(others), m, i, n);
    id in m'.subscribers && m'.subscribers[id] == Counting(Counted(m.subscribers[id].s, vs, id))
  }

  lemma HandsOverOneMore<U(!new), W(!new)>(
      others: Behaviour<Member<U>, W>, m: Manager<Member<U>, W>, i: nat, n: nat, id: U64)
    requires i < n <= |m.ep.ready| && id in m.subscribers && m.subscribers[id].Counting?
    requires
      var (m1, v) := VisitEntry(Client(others), m, i);
      var (m', rest) := DispatchFrom(Client(others), m1, i + 1, n);
      && id in m1.subscribers && m1.subscribers[id].Counting?
      && DispatchFrom(Client(others), m, i, n) == (m', [v] + rest)
      && Counted(m1.subscribers[id].s, rest, id) == Counted(m.subscribers[id].s, [v] + rest, id)
      && HandsOver(others, m1, i + 1, n, id)
    ensures HandsOver(others, m, i, n, id)
  {
  }

  lemma {:induction false} HandedIsCounted<U(!new), W(!new)>(
      others: Behaviour<Member<U>, W>, m: Manager<Member<U>, W>, batch: seq<EpollEvent>, i: nat,
      owner: map<RawFd, U64>, gone: set<RawFd>, id: U64, t: Trio)
    requires Listening(m, batch, i, owner, gone, id, t)
    requires PoliteVisits(m.chan, DispatchFrom(Client(others), m, i, |batch|).1)
    ensures HandsOver(others, m, i, |batch|, id)
    decreases |batch| - i
  {
    if i < |batch| {
      var (m1, v) := VisitEntry(Client(others), m, i);
      ListenOn(others, m, batch, i, owner, gone, id, t);
      HandedIsCounted(others, m1, batch, i + 1, owner, gone + RemovedBy(v), id, t);
      HandsOverOneMore(others, m, i, |batch|, id);
    }
  }

  /** Even if others remove, modify or close its descriptors in the middle of a later batch,
      each counter rises by exactly the events on its descriptor that were dispatched. */
  lemma LaterBatchesCountExactly<U(!new), W(!new)>(
      others: Behaviour<Member<U>, W>, m: Manager<Member<U>, W>, id: U64, t: Trio, batch: seq<EpollEvent>)
    requires Inv(m) && Standing(m, id, t) && !m.subscribers[id].s.toggle
    requires Polled(m.ep, m.chan, batch) && OnlyIn(batch, t) && PoliteVisits(m.chan, RunBatch(others, m, batch).1)
    ensures
      var (m', vs) := RunBatch(others, m, batch);
      && id in m'.subscribers && m'.subscribers[id] == Counting(Counted(m.subscribers[id].s, vs, id))
      && !m'.subscribers[id].s.failed
  {
    PollStartsWalk(m, id, t, batch);
    HandedIsCounted(others, Fill(m, batch), batch, 0, m.ep.dispatch, {}, id, t);
  }

  // ---------- any number of batches and closures ----------

  /** What the manager does over time: a batch, or a closure of its owner or of a remote thread. */
  datatype Round<!U, !W, !V> = Batch(batch: seq<EpollEvent>) | Work(code: W -> Closure<Member<U>, W, V>)

  function AfterRound<U, W, V>(
      others: Behaviour<Member<U>, W>, m: Manager<Member<U>, W>, r: Round<U, W, V>): Manager<Member<U>, W> {
    match r
    case Batch(batch) => if |batch| <= |m.ep.ready| then RunBatch(others, m, batch).0 else m
    case Work(code) => RunClosure(Client(others), m, code(m.world), []).0
  }

  // What a closure may do beside the subscriber.

  /** A request that neither names `id` nor touches its descriptors: not by an operation or the
      `init` of a new subscriber, and not by removing a subscriber whose watch list, stale or
      not, names one of them. */
  ghost predicate Gentle<U, W>(
      others: Behaviour<Member<U>, W>, m: Manager<Member<U>, W>, req: Request<Member<U>, W>, id: U64, t: Trio) {
    match req
    case AddSubscriber(x, w) =>
      m.nextId < U64_MAX ==>
        var p := Client(others).init(x, w);
        forall d :: d in Run(Enrol(m, x).ep, m.nextId, p, []).log ==> !Touches(d, Fds(t))
    case RemoveSubscriber(x) => x != id && forall fd :: fd in WatchListOf(m.ep, x) ==> fd !in Fds(t)
    case SubscriberMut(x, _) => x != id
    case EventOps(x, op) =>
      && (x == id ==> op.Open? || op.Close?)
      && (Accepted(m, x, op) ==> !Touches(Done(x, op, Apply(m.ep, x, op).1), Fds(t)))
  }

  ghost predicate GentleClosure<U, W, V>(
      others: Behaviour<Member<U>, W>, m: Manager<Member<U>, W>, c: Closure<Member<U>, W, V>,
      h: seq<Reply<Member<U>, W>>, id: U64, t: Trio)
    decreases c.budget - |h|
  {
    !c.Stopped(h) ==>
      && Gentle(others, m, c.Next(h), id, t)
      && var (m1, reply) := Answer(Client(others), m, c.Next(h));
         reply.Some? ==> GentleClosure(others, m1, c, h + [reply.value], id, t)
  }

  lemma RemovalKeepsHeld(w: Wrapper, id: U64, t: Trio, other: U64)
    requires Held(w, id, t) && forall fd :: fd in WatchListOf(w, other) ==> fd !in Fds(t)
    ensures Held(Index.RemoveSubscriber(w, other), id, t)
  {
    RemoveAllIs(w.(watch := w.watch - {other}), WatchListOf(w, other));
  }

  lemma GentleOpKeepsHeld(w: Wrapper, chan: RawFd, id: U64, t: Trio, other: U64, op: Op)
    requires Indexed(w, chan) && Held(w, id, t) && (other == id ==> op.Open? || op.Close?)
    requires !Touches(Done(other, op, Apply(w, other, op).1), Fds(t))
    ensures Held(Apply(w, other, op).0, id, t)
  {
    if other != id {
      OthersKeepHeld(w, chan, id, t, other, op);
    }
  }

  lemma GentleKeepsStanding<U(!new), W(!new)>(
      others: Behaviour<Member<U>, W>, m: Manager<Member<U>, W>, req: Request<Member<U>, W>, id: U64, t: Trio)
    requires Inv(m) && Standing(m, id, t)
    requires PoliteAnswer(Client(others), m, req) && Gentle(others, m, req, id, t)
    ensures
      var m1 := Answer(Client(others), m, req).0;
      Standing(m1, id, t) && m1.subscribers[id] == m.subscribers[id]
  {
    AnswerKeepsInv(Client(others), m, req);
    match req {
      case AddSubscriber(x, w) =>
        if m.nextId < U64_MAX {
          EnrolKeepsInv(m, x);
          RunKeepsHeld(m.ep, m.chan, id, t, m.nextId, Client(others).init(x, w), []);
        }
      case RemoveSubscriber(x) => RemovalKeepsHeld(m.ep, id, t, x);
      case SubscriberMut(_, _) =>
      case EventOps(x, op) =>
        if Accepted(m, x, op) {
          GentleOpKeepsHeld(m.ep, m.chan, id, t, x, op);
        }
    }
  }

  /** A whole closure of such requests leaves the subscriber and its registrations as they are,
      whatever else it adds, removes and changes. */
  lemma {:induction false} GentleClosureKeepsStanding<U(!new), W(!new), V(!new)>(
      others: Behaviour<Member<U>, W>, m: Manager<Member<U>, W>, c: Closure<Member<U>, W, V>,
      h: seq<Reply<Member<U>, W>>, id: U64, t: Trio)
    requires Inv(m) && Standing(m, id, t)
    requires PoliteClosure(Client(others), m, c, h) && GentleClosure(others, m, c, h, id, t)
    ensures
      var m1 := RunClosure(Client(others), m, c, h).0;
      Inv(m1) && Standing(m1, id, t) && m1.subscribers[id] == m.subscribers[id]
    decreases c.budget - |h|
  {
    if !c.Stopped(h) {
      var (m1, reply) := Answer(Client(others), m, c.Next(h));
      AnswerKeepsInv(Client(others), m, c.Next(h));
      GentleKeepsStanding(others, m, c.Next(h), id, t);
      if reply.Some? {
        GentleClosureKeepsStanding(others, m1, c, h + [reply.value], id, t);
      }
    }
  }

  /** A round in which others leave `id` and its registrations alone. */
  ghost predicate Considerate<U, W, V>(
      others: Behaviour<Member<U>, W>, m: Manager<Member<U>, W>, r: Round<U, W, V>, id: U64, t: Trio) {
    match r
    case Batch(batch) => Polled(m.ep, m.chan, batch) && OnlyIn(batch, t) && PeacefulBatch(others, m, batch, id, t)
    case Work(code) =>
      && PoliteClosure(Client(others), m, code(m.world), [])
      && GentleClosure(others, m, code(m.world), [], id, t)
  }

  ghost predicate AllConsiderate<U, W, V>(
      others: Behaviour<Member<U>, W>, m: Manager<Member<U>, W>, rs: seq<Round<U, W, V>>, id: U64, t: Trio)
    decreases |rs|
  {
    rs != [] ==>
      && Considerate(others, m, rs[0], id, t)
      && AllConsiderate(others, AfterRound(others, m, rs[0]), rs[1..], id, t)
  }

  function AfterRounds<U, W, V>(
      others: Behaviour<Member<U>, W>, m: Manager<Member<U>, W>, rs: seq<Round<U, W, V>>): Manager<Member<U>, W>
    decreases |rs|
  {
    if rs == [] then m else AfterRounds(others, AfterRound(others, m, rs[0]), rs[1..])
  }

  /** All events polled, in order. */
  function Events<U, W, V>(rs: seq<Round<U, W, V>>): seq<EpollEvent> {
    if rs == [] then [] else (if rs[0].Batch? then rs[0].batch else []) + Events(rs[1..])
  }

  lemma {:induction false} EventsOnConcat(a: seq<EpollEvent>, b: seq<EpollEvent>, fd: RawFd)
    ensures EventsOn(a + b, fd) == EventsOn(a, fd) + EventsOn(b, fd)
  {
    if a == [] {
      assert a + b == b;
    } else {
      assert (a + b)[1..] == a[1..] + b;
      EventsOnConcat(a[1..], b, fd);
    }
  }

  lemma CountedTwice(s: Counters, a: seq<EpollEvent>, b: seq<EpollEvent>)
    ensures CountedAll(CountedAll(s, a), b) == CountedAll(s, a + b)
  {
    EventsOnConcat(a, b, s.fd1);
    EventsOnConcat(a, b, s.fd2);
    EventsOnConcat(a, b, s.fd3);
  }

  lemma RoundCounts<U(!new), W(!new), V(!new)>(
      others: Behaviour<Member<U>, W>, m: Manager<Member<U>, W>, id: U64, t: Trio, r: Round<U, W, V>)
    requires Inv(m) && Standing(m, id, t) && !m.subscribers[id].s.toggle && Considerate(others, m, r, id, t)
    ensures
      var m1 := AfterRound(others, m, r);
      && Inv(m1) && Standing(m1, id, t)
      && m1.subscribers[id] == Counting(CountedAll(m.subscribers[id].s, if r.Batch? then r.batch else []))
  {
    match r {
      case Batch(batch) => LaterBatchCountsAll(others, m, id, t, batch);
      case Work(code) => GentleClosureKeepsStanding(others, m, code(m.world), [], id, t);
    }
  }

  /** Over any number of batches, with any closures in between, the counters stay exact: each has
      risen by the number of events polled on its descriptor in all of them, none lost and none
      counted twice, and the subscriber is still registered. */
  lemma {:induction false} ManyBatchesCountExactly<U(!new), W(!new), V(!new)>(
      others: Behaviour<Member<U>, W>, m: Manager<Member<U>, W>, id: U64, t: Trio, rs: seq<Round<U, W, V>>)
    requires Inv(m) && Standing(m, id, t) && !m.subscribers[id].s.toggle && AllConsiderate(others, m, rs, id, t)
    ensures
      var m' := AfterRounds(others, m, rs);
      Standing(m', id, t) && m'.subscribers[id] == Counting(CountedAll(m.subscribers[id].s, Events(rs)))
    decreases |rs|
  {
    if rs != [] {
      RoundCounts(others, m, id, t, rs[0]);
      ManyBatchesCountExactly(others, AfterRound(others, m, rs[0]), id, t, rs[1..]);
      CountedTwice(m.subscribers[id].s, if rs[0].Batch? then rs[0].batch else [], Events(rs[1..]));
    }
  }

  // ---------- end to end ----------

  predicate Elsewhere(s: Counters, chan: RawFd) {
    s.fd1 != chan && s.fd2 != chan && s.fd3 != chan
  }

  lemma InterestIsOn(firstData: U32, fd: RawFd, offset: nat)
    ensures Interest(firstData, fd, offset).Some? ==> Fd(Interest(firstData, fd, offset).value) == fd
  {
    if firstData + offset < TWO_32 {
      PackReadsBack(fd, firstData + offset, IN);
    }
  }

  lemma {:induction false} FollowingIsPolite<R>(
      w: Wrapper, id: U64, script: seq<Option<Op>>, outcome: bool -> R, h: seq<Result>, chan: RawFd)
    requires forall i :: 0 <= i < |script| && script[i].Some? ==> Polite(chan, script[i].value)
    ensures PoliteLog(chan, Run(w, id, Following(script, outcome), h).log)
    decreases |script| - |h|
  {
    var p := Following(script, outcome);
    if !p.Stopped(h) {
      OneStep(w, id, p, h, p.Next(h));
      FollowingIsPolite(Apply(w, id, p.Next(h)).0, id, script, outcome, h + [Apply(w, id, p.Next(h)).1], chan);
    }
  }

  /** Its operations are on its own descriptors or its event's, even while it re-registers. */
  lemma ProcessIsPolite<R>(w: Wrapper, id: U64, s: Counters, ev: EpollEvent, chan: RawFd, done: Counters -> R)
    requires Elsewhere(s, chan) && Fd(ev) != chan
    ensures PoliteLog(chan, Run(w, id, Process(s, ev, done), []).log)
  {
    InterestIsOn(s.firstData, s.fd1, 0);
    InterestIsOn(s.firstData, s.fd2, 1);
    InterestIsOn(s.firstData, s.fd3, 2);
    FollowingIsPolite(w, id, Script(s, ev), (ok: bool) => done(AfterProcess(s, ev, ok)), [], chan);
  }

  lemma InitIsPolite<R>(w: Wrapper, id: U64, s: Counters, chan: RawFd, done: Counters -> R)
    ensures PoliteLog(chan, Run(w, id, Init(s, done), []).log)
  {
    FollowingIsPolite(w, id, AddAll(s), (ok: bool) => done(AfterInit(s, ok)), [], chan);
  }

  /** `id` is the manager's only subscriber, and claims no descriptor of the channel. */
  ghost predicate Alone<U, W>(m: Manager<Member<U>, W>, id: U64) {
    m.subscribers.Keys == {id} && m.subscribers[id].Counting? && Elsewhere(m.subscribers[id].s, m.chan)
  }

  lemma ProcessStaysOffChannel<R>(
      w: Wrapper, id: U64, s: Counters, ev: EpollEvent, chan: RawFd, done: Counters -> R)
    requires Indexed(w, chan) && Elsewhere(s, chan) && Fd(ev) != chan
    ensures
      var p := Process(s, ev, done);
      var r := Run(w, id, p, []);
      && PoliteLog(chan, r.log) && Indexed(r.w, chan) && r.w.watch.Keys <= w.watch.Keys + {id}
      && exists x :: Elsewhere(x, chan) && p.outcome(r.history) == done(x)
  {
    var p := Process(s, ev, done);
    ProcessIsPolite(w, id, s, ev, chan, done);
    RunKeeps(w, chan, id, p, [], [], 0, map[], {});
    var h := Run(w, id, p, []).history;
    ProcessEnds(s, ev, done, h);
    assert Elsewhere(AfterProcess(s, ev, |h| == |Script(s, ev)| && AllOk(h)), chan);
  }

  lemma AloneVisit<U(!new), W(!new)>(others: Behaviour<Member<U>, W>, m: Manager<Member<U>, W>, i: nat, id: U64)
    requires Inv(m) && Alone(m, id) && i < |m.ep.ready|
    ensures
      var (m1, v) := VisitEntry(Client(others), m, i);
      PoliteVisit(m.chan, v) && (v.Called? ==> v.id == id) && Inv(m1) && Alone(m1, id) && m1.chan == m.chan
  {
    if Look(m, i).ToProcess? {
      var s, ev, shared := m.subscribers[id].s, m.ep.ready[i], m.world;
      var done := (x: Counters) => (Member<U>.Counting(x), shared);
      assert Look(m, i).id in m.subscribers.Keys;
      VisitIs(others, m, i, id);
      assert Client(others).process(m.subscribers[id], m.world, ev) == Process(s, ev, done);
      ProcessStaysOffChannel(m.ep, id, s, ev, m.chan, done);
    }
  }

  lemma {:induction false} AloneIsPeaceful<U(!new), W(!new)>(
      others: Behaviour<Member<U>, W>, m: Manager<Member<U>, W>, i: nat, n: nat, id: U64, t: Trio)
    requires Inv(m) && Alone(m, id) && i <= n <= |m.ep.ready|
    ensures Peaceful(others, m, i, n, id, t)
    decreases n - i
  {
    if i < n {
      AloneVisit(others, m, i, id);
      AloneIsPeaceful(others, VisitEntry(Client(others), m, i).0, i + 1, n, id, t);
    }
  }

  lemma FreshIsFree<U(!new), W(!new)>(capacity: nat, chan: RawFd, open: set<RawFd>, w: W, s: Counters, t: Trio)
    requires Protocol.Descriptors(chan, open) && Registers(s, t) && Separate(t, chan) && {s.fd1, s.fd2, s.fd3} <= open
    ensures
      var m0 := Protocol.Fresh<Member<U>, W>(capacity, chan, open, w);
      Inv(m0) && m0.nextId == 1 && m0.subscribers == map[] && Free(m0.ep, 1, t)
  {
  }

  /** Adding the subscriber to a new manager registers its three eventfds under id 1. */
  lemma AddedToFresh<U(!new), W(!new)>(
      others: Behaviour<Member<U>, W>, capacity: nat, chan: RawFd, open: set<RawFd>, w: W, s: Counters, t: Trio)
    requires Protocol.Descriptors(chan, open) && Registers(s, t) && Separate(t, chan) && {s.fd1, s.fd2, s.fd3} <= open
    requires !s.failed
    ensures
      var (m, reply) := Answer(Client(others), Protocol.Fresh(capacity, chan, open, w), AddSubscriber(Counting(s), w));
      && reply == Some(Added(1, w)) && m.subscribers == map[1 := Counting(s)] && m.chan == chan
      && Inv(m) && Standing(m, 1, t) && Alone(m, 1)
  {
    var m0 := Protocol.Fresh<Member<U>, W>(capacity, chan, open, w);
    var req: Request<Member<U>, W> := AddSubscriber(Counting(s), w);
    var done := (x: Counters) => (Member<U>.Counting(x), w);
    FreshIsFree<U, W>(capacity, chan, open, w, s, t);
    assert Client(others).init(Counting(s), w) == Init(s, done);
    InitRegisters(m0.ep, 1, s, t, chan, done);
    InitIsPolite(m0.ep, 1, s, chan, done);
    AnswerKeepsInv(Client(others), m0, req);
    assert map[1 := Member<U>.Counting(s)][1 := Counting(s)] == map[1 := Member<U>.Counting(s)];
  }

  lemma AloneCountsOnce<U(!new), W(!new)>(
      others: Behaviour<Member<U>, W>, m: Manager<Member<U>, W>, id: U64, t: Trio, batch: seq<EpollEvent>)
    requires Inv(m) && Standing(m, id, t) && Alone(m, id) && m.subscribers[id].s.toggle
    requires Polled(m.ep, m.chan, batch) && forall j :: 0 <= j < |batch| ==> batch[j].events == IN
    requires exists j :: 0 <= j < |batch| && Fd(batch[j]) != m.chan
    ensures
      var m' := RunBatch(others, m, batch).0;
      Standing(m', id, t) && Total(m'.subscribers[id].s) == Total(m.subscribers[id].s) + 1
  {
    FilledIsPending(m, batch);
    AloneIsPeaceful(others, Fill(m, batch), 0, |batch|, id, t);
    var j :| 0 <= j < |batch| && Fd(batch[j]) != m.chan;
    assert m.ep.dispatch[Fd(batch[j])] in m.subscribers.Keys;
    assert Fd(batch[j]) in Fds(t);
    FirstBatchCountsOnce(others, m, id, t, batch);
  }

  /** End to end, from a new manager: a subscriber whose three eventfds are open is added with
      the flag set, and of the first batch with events of its own exactly one is counted,
      whether or not the channel is ready as well. */
  lemma ReusedDescriptorsCountOnce<U(!new), W(!new)>(
      others: Behaviour<Member<U>, W>, capacity: nat, chan: RawFd, open: set<RawFd>, w: W, s: Counters,
      batch: seq<EpollEvent>)
    requires Protocol.Descriptors(chan, open) && WellFormed(s, chan) && {s.fd1, s.fd2, s.fd3} <= open
    requires s.toggle && !s.failed
    requires
      var m := Answer(Client(others), Protocol.Fresh(capacity, chan, open, w), AddSubscriber(Counting(s), w)).0;
      Polled(m.ep, chan, batch)
    requires forall j :: 0 <= j < |batch| ==> batch[j].events == IN
    requires exists j :: 0 <= j < |batch| && Fd(batch[j]) != chan
    ensures
      var m := Answer(Client(others), Protocol.Fresh(capacity, chan, open, w), AddSubscriber(Counting(s), w)).0;
      var m' := RunBatch(others, m, batch).0;
      && 1 in m'.subscribers && m'.subscribers[1].Counting?
      && Total(m'.subscribers[1].s) == Total(s) + 1 && !m'.subscribers[1].s.failed
  {
    var t := TrioOf(s, chan);
    AddedToFresh(others, capacity, chan, open, w, s, t);
    var m := Answer(Client(others), Protocol.Fresh(capacity, chan, open, w), AddSubscriber(Counting(s), w)).0;
    AloneCountsOnce(others, m, 1, t, batch);
  }
}
