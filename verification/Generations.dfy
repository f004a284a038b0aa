// A simpler machine that `dispatch_events` refines. It has one table from descriptor
// to registration, each registration carrying a generation that is never reused. A
// polled event is a ticket bound to the registration current at the poll, and is
// honoured only while that same registration stands. There are no watch lists, no
// ready buffer, and nothing is ever overwritten.

module Generations {
  import opened EventData
  import opened Index
  import opened Dispatch

  datatype Registration = Registration(owner: U64, generation: nat)

  datatype Ledger = Ledger(kernel: Kernel, regs: map<RawFd, Registration>, next: nat)

  datatype Ticket = Ticket(ev: EpollEvent, reg: Option<Registration>)

  datatype Desk<T, W> = Desk(ledger: Ledger, subscribers: map<U64, T>, world: W)

  function Perform(l: Ledger, id: U64, op: Op): (Ledger, Result) {
    match op
    case OpAdd(ev) =>
      if Fd(ev) in l.regs then (l, Err(FdAlreadyRegistered))
      else
        var (k, ok) := Ctl(l.kernel, Add, Fd(ev), ev);
        if ok then (Ledger(k, l.regs[Fd(ev) := Registration(id, l.next)], l.next + 1), Ok) else (l, Err(Epoll))
    case OpModify(ev) =>
      var (k, ok) := Ctl(l.kernel, Modify, Fd(ev), ev);
      (l.(kernel := k), if ok then Ok else Err(Epoll))
    case OpRemove(ev) =>
      var (k, ok) := Ctl(l.kernel, Delete, Fd(ev), ev);
      if ok then (l.(kernel := k, regs := l.regs - {Fd(ev)}), Ok) else (l, Err(Epoll))
    case Open(fd) => var (k, ok) := OpenFd(l.kernel, fd); (l.(kernel := k), if ok then Ok else Err(Epoll))
    case Close(fd) => var (k, ok) := CloseFd(l.kernel, fd); (l.(kernel := k), if ok then Ok else Err(Epoll))
  }

  function RunOn<R>(l: Ledger, id: U64, p: Program<R>, h: seq<Result>): (Ledger, seq<Result>, seq<Done>)
    decreases p.budget - |h|
  {
    if p.Stopped(h) then (l, h, [])
    else
      var (l1, res) := Perform(l, id, p.Next(h));
      var (l2, h2, log) := RunOn(l1, id, p, h + [res]);
      (l2, h2, [Done(id, p.Next(h), res)] + log)
  }

  predicate Stands(l: Ledger, t: Ticket) {
    t.reg.Some? ==> Fd(t.ev) in l.regs && l.regs[Fd(t.ev)] == t.reg.value
  }

  function ServeOne<T, W>(beh: Behaviour<T, W>, d: Desk<T, W>, t: Ticket): (Desk<T, W>, Visit) {
    if t.reg.None? then (d, Deferred(t.ev))
    else if Stands(d.ledger, t) && t.reg.value.owner in d.subscribers then
      var id := t.reg.value.owner;
      var p := beh.process(d.subscribers[id], d.world, t.ev);
      var (l, h, log) := RunOn(d.ledger, id, p, []);
      var (s, w) := p.outcome(h);
      (Desk(l, d.subscribers[id := s], w), Called(id, t.ev, log))
    else (d, Discarded)
  }

  /** Serves the tickets of one batch in order. */
  function Serve<T, W>(beh: Behaviour<T, W>, d: Desk<T, W>, tickets: seq<Ticket>): (Desk<T, W>, seq<Visit>)
    decreases |tickets|
  {
    if tickets == [] then (d, [])
    else
      var (d1, v) := ServeOne(beh, d, tickets[0]);
      var (d2, vs) := Serve(beh, d1, tickets[1..]);
      (d2, [v] + vs)
  }

  // ---------- the correspondence ----------

  ghost predicate Represents(l: Ledger, w: Wrapper) {
    && l.kernel == w.kernel
    && l.regs.Keys == w.dispatch.Keys
    && (forall fd :: fd in l.regs ==> l.regs[fd].owner == w.dispatch[fd] && l.regs[fd].generation < l.next)
  }

  /** From entry `i` on, the buffer holds an event exactly where the ticket still stands. */
  ghost predicate Buffered(l: Ledger, w: Wrapper, chan: RawFd, tickets: seq<Ticket>, i: nat) {
    && |tickets| <= |w.ready|
    && (forall j :: 0 <= j < |tickets| ==>
          && tickets[j].ev.events != 0
          && (tickets[j].reg.None? <==> Fd(tickets[j].ev) == chan)
          && (tickets[j].reg.Some? ==> tickets[j].reg.value.generation < l.next))
    && (forall j :: i <= j < |tickets| ==> w.ready[j] == if Stands(l, tickets[j]) then tickets[j].ev else DEFAULT_EVENT)
  }

  lemma PerformRefines(l: Ledger, w: Wrapper, chan: RawFd, id: U64, op: Op, tickets: seq<Ticket>, i: nat)
    requires Represents(l, w) && Buffered(l, w, chan, tickets, i) && Polite(chan, op)
    ensures Perform(l, id, op).1 == Apply(w, id, op).1
    ensures Represents(Perform(l, id, op).0, Apply(w, id, op).0)
    ensures Buffered(Perform(l, id, op).0, Apply(w, id, op).0, chan, tickets, i)
  {
  }

  lemma {:induction false} RunRefines<R>(
      l: Ledger, w: Wrapper, chan: RawFd, id: U64, p: Program<R>, h: seq<Result>, tickets: seq<Ticket>, i: nat)
    requires Represents(l, w) && Buffered(l, w, chan, tickets, i) && PoliteLog(chan, Run(w, id, p, h).log)
    ensures
      var (l', h', log) := RunOn(l, id, p, h);
      var r := Run(w, id, p, h);
      && h' == r.history && log == r.log
      && Represents(l', r.w) && Buffered(l', r.w, chan, tickets, i)
    decreases p.budget - |h|
  {
    if !p.Stopped(h) {
      assert Run(w, id, p, h).log[0].op == p.Next(h);
      PerformRefines(l, w, chan, id, p.Next(h), tickets, i);
      var (w1, res) := Apply(w, id, p.Next(h));
      RunRefines(Perform(l, id, p.Next(h)).0, w1, chan, id, p, h + [res], tickets, i);
    }
  }

  ghost predicate Matches<T, W>(d: Desk<T, W>, m: Manager<T, W>) {
    Represents(d.ledger, m.ep) && d.subscribers == m.subscribers && d.world == m.world
  }

  lemma VisitRefines<T(!new), W(!new)>(
      beh: Behaviour<T, W>, d: Desk<T, W>, m: Manager<T, W>, tickets: seq<Ticket>, i: nat)
    requires Matches(d, m) && Buffered(d.ledger, m.ep, m.chan, tickets, i) && i < |tickets|
    requires Inv(m) && PoliteVisit(m.chan, VisitEntry(beh, m, i).1)
    ensures
      var (m1, v) := VisitEntry(beh, m, i);
      var (d1, u) := ServeOne(beh, d, tickets[i]);
      && u == v && !v.Failed?
      && Matches(d1, m1) && Inv(m1) && m1.chan == m.chan
      && Buffered(d1.ledger, m1.ep, m.chan, tickets, i + 1)
  {
    var (m1, v) := VisitEntry(beh, m, i);
    if v.Called? {
      var p := beh.process(m.subscribers[v.id], m.world, m.ep.ready[i]);
      RunRefines(d.ledger, m.ep, m.chan, v.id, p, [], tickets, i + 1);
      RunKeeps(m.ep, m.chan, v.id, p, [], [], 0, map[], {});
    }
  }

  lemma {:induction false} DispatchSimulates<T(!new), W(!new)>(
      beh: Behaviour<T, W>, d: Desk<T, W>, m: Manager<T, W>, tickets: seq<Ticket>, i: nat)
    requires Matches(d, m) && i <= |tickets| && Buffered(d.ledger, m.ep, m.chan, tickets, i)
    requires Inv(m) && PoliteVisits(m.chan, DispatchFrom(beh, m, i, |tickets|).1)
    ensures
      var (m', vs) := DispatchFrom(beh, m, i, |tickets|);
      var (d', us) := Serve(beh, d, tickets[i..]);
      vs == us && Matches(d', m')
    decreases |tickets| - i
  {
    if i < |tickets| {
      assert DispatchFrom(beh, m, i, |tickets|).1[0] == VisitEntry(beh, m, i).1;
      VisitRefines(beh, d, m, tickets, i);
      var d1 := ServeOne(beh, d, tickets[i]).0;
      var m1 := VisitEntry(beh, m, i).0;
      assert tickets[i..][1..] == tickets[i + 1..];
      DispatchSimulates(beh, d1, m1, tickets, i + 1);
    }
  }

  function Issue(l: Ledger, batch: seq<EpollEvent>): (ts: seq<Ticket>)
    ensures |ts| == |batch|
  {
    seq(|batch|, j requires 0 <= j < |batch| =>
      Ticket(batch[j], if Fd(batch[j]) in l.regs then Some(l.regs[Fd(batch[j])]) else None))
  }

  /** The refinement: for arbitrary callbacks, walking the buffer that they edit under the
      walk makes the same `process` calls, with the same results, and ends in the same
      state as serving the immutable tickets of that poll. */
  lemma DispatchRefinesGenerations<T(!new), W(!new)>(
      beh: Behaviour<T, W>, d: Desk<T, W>, m: Manager<T, W>, batch: seq<EpollEvent>)
    requires Inv(m) && Polled(m.ep, m.chan, batch) && Matches(d, m)
    requires PoliteVisits(m.chan, DispatchFrom(beh, Fill(m, batch), 0, |batch|).1)
    ensures
      var (m', vs) := DispatchFrom(beh, Fill(m, batch), 0, |batch|);
      var (d', us) := Serve(beh, d, Issue(d.ledger, batch));
      vs == us && Matches(d', m')
  {
    var tickets := Issue(d.ledger, batch);
    var filled := Fill(m, batch);
    FilledIsPending(m, batch);
    assert Buffered(d.ledger, filled.ep, m.chan, tickets, 0);
    assert tickets[0..] == tickets;
    DispatchSimulates(beh, d, filled, tickets, 0);
  }

  /** Where any manager can start: every registration under one old generation. */
  function DeskOf<T, W>(m: Manager<T, W>): Desk<T, W> {
    Desk(Ledger(m.ep.kernel, map fd | fd in m.ep.dispatch :: Registration(m.ep.dispatch[fd], 0), 1), m.subscribers,
         m.world)
  }

  /** So any batch of any manager amounts to serving tickets: the calls made, subscribers, shared
      state, kernel and owners after it are all those of the simpler machine. */
  lemma EveryBatchIsServed<T(!new), W(!new)>(beh: Behaviour<T, W>, m: Manager<T, W>, batch: seq<EpollEvent>)
    requires Inv(m) && Polled(m.ep, m.chan, batch)
    requires PoliteVisits(m.chan, DispatchFrom(beh, Fill(m, batch), 0, |batch|).1)
    ensures
      var (m', vs) := DispatchFrom(beh, Fill(m, batch), 0, |batch|);
      var (d', us) := Serve(beh, DeskOf(m), Issue(DeskOf(m).ledger, batch));
      && vs == us
      && m'.subscribers == d'.subscribers && m'.world == d'.world && m'.ep.kernel == d'.ledger.kernel
      && m'.ep.dispatch == map fd | fd in d'.ledger.regs :: d'.ledger.regs[fd].owner
  {
    DispatchRefinesGenerations(beh, DeskOf(m), m, batch);
  }

  /** Why generations matter: a descriptor removed and added again, by anybody, holds a
      different registration, so a ticket issued before no longer stands. */
  lemma ReAddedIsAnotherRegistration(l: Ledger, id: U64, ev: EpollEvent, again: EpollEvent, t: Ticket, other: U64)
    requires Fd(again) == Fd(ev) == Fd(t.ev) && t.reg.Some? && t.reg.value.generation < l.next
    requires Perform(l, id, OpRemove(ev)).1 == Ok
    ensures
      var l2 := Perform(Perform(l, id, OpRemove(ev)).0, other, OpAdd(again));
      l2.1 == Ok ==> !Stands(l2.0, t)
  {
  }
}
