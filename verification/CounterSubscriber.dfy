// `CounterSubscriberWithData` as the object it is, with fields that `process` changes and
// registrations that it changes through an `EventOps` handle (src/utilities/subscribers.rs).

module CounterSubscriber {
  import opened EventData
  import opened Index
  import opened Dispatch
  import opened Epoll
  import opened CounterClient

  function AsIs(script: seq<Option<Op>>): Program<bool> {
    Following(script, (ok: bool) => ok)
  }

  /** What a program does does not depend on what it returns. */
  lemma {:induction false} OutcomeDoesNotMatter<R>(
      w: Wrapper, id: U64, script: seq<Option<Op>>, outcome: bool -> R, h: seq<Result>)
    ensures Run(w, id, Following(script, outcome), h).w == Run(w, id, AsIs(script), h).w
    ensures Run(w, id, Following(script, outcome), h).history == Run(w, id, AsIs(script), h).history
    decreases |script| - |h|
  {
    if !AsIs(script).Stopped(h) {
      var (w1, res) := Apply(w, id, AsIs(script).Next(h));
      OutcomeDoesNotMatter(w1, id, script, outcome, h + [res]);
    }
  }

  /** The script run from `w` and `h` ends as it does from `w'` and `h'`. */
  ghost predicate OnTheWay(script: seq<Option<Op>>, id: U64, w: Wrapper, h: seq<Result>, w': Wrapper, h': seq<Result>) {
    && Run(w, id, AsIs(script), h).w == Run(w', id, AsIs(script), h').w
    && Run(w, id, AsIs(script), h).history == Run(w', id, AsIs(script), h').history
  }

  function Unchanged(s: Counters): Counters {
    s
  }

  /** A script followed to where it stops is `process` run to its end. */
  lemma ProcessIsFollowed<R>(
      id: U64, s: Counters, ev: EpollEvent, done: Counters -> R, w: Wrapper, w': Wrapper, h': seq<Result>)
    requires OnTheWay(Script(s, ev), id, w, [], w', h') && AsIs(Script(s, ev)).Stopped(h')
    ensures
      var p := CounterClient.Process(s, ev, done);
      var r := Run(w, id, p, []);
      r.w == w' && p.outcome(r.history) == done(AfterProcess(s, ev, |h'| == |Script(s, ev)| && AllOk(h')))
  {
    assert Run(w', id, AsIs(Script(s, ev)), h') == Ran(w', h', []);
    OutcomeDoesNotMatter(w, id, Script(s, ev), (ok: bool) => done(AfterProcess(s, ev, ok)), []);
    ProcessEnds(s, ev, done, h');
  }

  lemma InitIsFollowed<R>(id: U64, s: Counters, done: Counters -> R, w: Wrapper, w': Wrapper, h': seq<Result>)
    requires OnTheWay(AddAll(s), id, w, [], w', h') && AsIs(AddAll(s)).Stopped(h')
    ensures
      var p := CounterClient.Init(s, done);
      var r := Run(w, id, p, []);
      r.w == w' && p.outcome(r.history) == done(AfterInit(s, |h'| == |AddAll(s)| && AllOk(h')))
  {
    assert Run(w', id, AsIs(AddAll(s)), h') == Ran(w', h', []);
    OutcomeDoesNotMatter(w, id, AddAll(s), (ok: bool) => done(AfterInit(s, ok)), []);
    InitEnds(s, done, h');
  }

  class CounterSubscriberWithData {
    const eventFd1: RawFd
    const eventFd2: RawFd
    const eventFd3: RawFd
    const firstData: U32
    var counter1: nat
    var counter2: nat
    var counter3: nat
    var toggleRegistry: bool
    var panicked: bool

    ghost function Value(): Counters
      reads this
    {
      Counters(eventFd1, eventFd2, eventFd3, counter1, counter2, counter3, firstData, toggleRegistry, panicked)
    }

    constructor (fd1: RawFd, fd2: RawFd, fd3: RawFd, firstData: U32)
      ensures Value() == Counters(fd1, fd2, fd3, 0, 0, 0, firstData, false, false)
    {
      eventFd1, eventFd2, eventFd3 := fd1, fd2, fd3;
      this.firstData := firstData;
      counter1, counter2, counter3 := 0, 0, 0;
      toggleRegistry, panicked := false, false;
    }

    method SetToggleRegistry(toggle: bool)
      modifies this`toggleRegistry
      ensures toggleRegistry == toggle
    {
      toggleRegistry := toggle;
    }

    /** A call on the handle whose result is passed to `expect`. */
    method Expect(
        ops: EventOps, op: Option<Op>, ghost script: seq<Option<Op>>, ghost h: seq<Result>
    ) returns (ok: bool, ghost h': seq<Result>)
      requires |h| < |script| && AllOk(h) && script[|h|] == op
      modifies ops.epollWrapper, ops.epollWrapper.readyEvents
      ensures OnTheWay(script, ops.subscriberId, old(ops.epollWrapper.Model()), h, ops.epollWrapper.Model(), h')
      ensures ok ==> |h'| == |h| + 1 && AllOk(h')
      ensures !ok ==> AsIs(script).Stopped(h') && !(|h'| == |script| && AllOk(h'))
    {
      if op.None? {
        return false, h;
      }
      OneStep(ops.epollWrapper.Model(), ops.subscriberId, AsIs(script), h, op.value);
      var res := ops.Do(op.value);
      ok, h' := res == Ok, h + [res];
      assert h'[|h|] == res && res in h';
    }

    /** Three calls of `remove`, from the start of the script. */
    method RemoveEach(ops: EventOps, ghost script: seq<Option<Op>>) returns (ok: bool, ghost h: seq<Result>)
      requires RemoveOwn(Value()) <= script
      modifies ops.epollWrapper, ops.epollWrapper.readyEvents
      ensures OnTheWay(script, ops.subscriberId, old(ops.epollWrapper.Model()), [], ops.epollWrapper.Model(), h)
      ensures ok ==> |h| == 3 && AllOk(h)
      ensures !ok ==> AsIs(script).Stopped(h) && !(|h| == |script| && AllOk(h))
    {
      h := [];
      ok, h := Expect(ops, Removing(Interest(firstData, eventFd1, 0)), script, h);
      if !ok { return; }
      ok, h := Expect(ops, Removing(Interest(firstData, eventFd2, 1)), script, h);
      if !ok { return; }
      ok, h := Expect(ops, Removing(Interest(firstData, eventFd3, 2)), script, h);
    }

    /** Three calls of `add`, from where the script has got to. */
    method AddEach(ops: EventOps, ghost script: seq<Option<Op>>, ghost h: seq<Result>)
      returns (ok: bool, ghost h': seq<Result>)
      requires AllOk(h) && |h| + 3 <= |script| && script[|h|..|h| + 3] == AddAll(Value())
      modifies ops.epollWrapper, ops.epollWrapper.readyEvents
      ensures OnTheWay(script, ops.subscriberId, old(ops.epollWrapper.Model()), h, ops.epollWrapper.Model(), h')
      ensures ok ==> |h'| == |h| + 3 && AllOk(h')
      ensures !ok ==> AsIs(script).Stopped(h') && !(|h'| == |script| && AllOk(h'))
    {
      h' := h;
      ghost var ahead := script[|h|..|h| + 3];
      assert script[|h|] == ahead[0] && script[|h| + 1] == ahead[1] && script[|h| + 2] == ahead[2];
      ok, h' := Expect(ops, Adding(Interest(firstData, eventFd1, 0)), script, h');
      if !ok { return; }
      ok, h' := Expect(ops, Adding(Interest(firstData, eventFd2, 1)), script, h');
      if !ok { return; }
      ok, h' := Expect(ops, Adding(Interest(firstData, eventFd3, 2)), script, h');
    }

    /** The six calls made when the flag is set. */
    method ReRegister(ops: EventOps, ghost script: seq<Option<Op>>) returns (ok: bool, ghost h: seq<Result>)
      requires RemoveOwn(Value()) + AddAll(Value()) <= script
      modifies ops.epollWrapper, ops.epollWrapper.readyEvents
      ensures OnTheWay(script, ops.subscriberId, old(ops.epollWrapper.Model()), [], ops.epollWrapper.Model(), h)
      ensures ok ==> |h| == 6 && AllOk(h)
      ensures !ok ==> AsIs(script).Stopped(h) && !(|h| == |script| && AllOk(h))
    {
      assert script[3..6] == AddAll(Value()) by {
        assert script[..6] == RemoveOwn(Value()) + AddAll(Value());
        assert script[3..6] == script[..6][3..];
      }
      ok, h := RemoveEach(ops, script);
      if ok {
        ok, h := AddEach(ops, script, h);
      }
    }

    /** The match on the event set. */
    method CountEvent(events: EpollEvent)
      modifies this`counter1, this`counter2, this`counter3, this`panicked
      ensures Value() == Count(old(Value()), events)
    {
      if events.events == IN {
        if Data(events) < firstData {
          panicked := true;
          return;
        }
        var eventId := Data(events) - firstData;
        match eventId {
          case 0 => counter1 := counter1 + 1;
          case 1 => counter2 := counter2 + 1;
          case 2 => counter3 := counter3 + 1;
          case _ =>
        }
      } else if events.events == HANG_UP {
        panicked := true;
      }
    }

    /** `process`: the index and the fields end as the program of module CounterClient says. */
    method Process(events: EpollEvent, ops: EventOps)
      modifies this, ops.epollWrapper, ops.epollWrapper.readyEvents
      ensures
        var p := CounterClient.Process(old(Value()), events, Unchanged);
        var r := Run(old(ops.epollWrapper.Model()), ops.subscriberId, p, []);
        ops.epollWrapper.Model() == r.w && Value() == p.outcome(r.history)
    {
      ghost var s, w := Value(), ops.epollWrapper.Model();
      ghost var script := Script(s, events);
      ghost var h: seq<Result> := [];
      var ok := true;
      if toggleRegistry {
        ok, h := ReRegister(ops, script);
        toggleRegistry := false;
      }
      if ok && events.events == HANG_UP {
        ok, h := Expect(ops, Some(OpRemove(events)), script, h);
      }
      ProcessIsFollowed(ops.subscriberId, s, events, Unchanged, w, ops.epollWrapper.Model(), h);
      if ok {
        CountEvent(events);
      } else {
        panicked := true;
      }
    }

    /** `init`. */
    method Init(ops: EventOps)
      modifies this`panicked, ops.epollWrapper, ops.epollWrapper.readyEvents
      ensures
        var p := CounterClient.Init(old(Value()), Unchanged);
        var r := Run(old(ops.epollWrapper.Model()), ops.subscriberId, p, []);
        ops.epollWrapper.Model() == r.w && Value() == p.outcome(r.history)
    {
      ghost var s, w := Value(), ops.epollWrapper.Model();
      ghost var script := AddAll(s);
      ghost var h: seq<Result> := [];
      var ok;
      assert script[0..3] == AddAll(Value());
      ok, h := AddEach(ops, script, h);
      InitIsFollowed(ops.subscriberId, s, Unchanged, w, ops.epollWrapper.Model(), h);
      if !ok {
        panicked := true;
      }
    }
  }
}
