// The values that travel between the kernel, the manager and its subscribers:
// epoll events, and the packing of a file descriptor and a user datum into the
// 64-bit word that epoll hands back (src/events.rs).

module EventData {

  const TWO_31: int := 0x8000_0000
  const TWO_32: int := 0x1_0000_0000
  const TWO_64: int := 0x1_0000_0000_0000_0000

  type RawFd = x: int | -0x8000_0000 <= x < 0x8000_0000
  type U32 = x: int | 0 <= x < 0x1_0000_0000
  type U64 = x: int | 0 <= x < 0x1_0000_0000_0000_0000

  datatype Option<+T> = None | Some(value: T)

  /** The kernel's epoll_event: an event mask and an opaque 64-bit datum.
      `Events` is a wrapper around one of these and has no other state. */
  datatype EpollEvent = EpollEvent(events: U32, data: U64)

  const DEFAULT_EVENT: EpollEvent := EpollEvent(0, 0)

  const IN: U32 := 0x1
  const HANG_UP: U32 := 0x10

  /** `source as u64`: an i32 is sign-extended. */
  function SignExtend(source: RawFd): U64 {
    if source < 0 then source + TWO_64 else source
  }

  /** `data() as RawFd`: the low 32 bits, read as two's complement. */
  function Fd(e: EpollEvent): RawFd {
    var low := e.data % TWO_32;
    if low < TWO_31 then low else low - TWO_32
  }

  /** `(data() >> 32) as u32`. */
  function Data(e: EpollEvent): U32 {
    e.data / TWO_32
  }

  /** `((data as u64) << 32) + (source as u64)`; None where the u64 sum overflows. */
  function WithDataRaw(source: RawFd, data: U32, events: U32): Option<EpollEvent> {
    var sum := data * TWO_32 + SignExtend(source);
    if sum < TWO_64 then Some(EpollEvent(events, sum)) else None
  }

  /** Packing overflows exactly for a negative descriptor with positive data. Where it
      does not, the descriptor and mask read back, and so does the datum except that
      a negative descriptor's own high bits read back as all ones. */
  lemma PackReadsBack(source: RawFd, data: U32, events: U32)
    ensures WithDataRaw(source, data, events).None? <==> source < 0 && data > 0
    ensures WithDataRaw(source, data, events).Some? ==>
              var e := WithDataRaw(source, data, events).value;
              && Fd(e) == source
              && e.events == events
              && Data(e) == (if source < 0 then TWO_32 - 1 else data)
  {
    if source < 0 && data == 0 {
      assert source + TWO_64 == (TWO_32 - 1) * TWO_32 + (source + TWO_32);
    }
  }

  /** Packing never confuses two registrations: where defined it is injective. */
  lemma PackInjective(s1: RawFd, d1: U32, m1: U32, s2: RawFd, d2: U32, m2: U32)
    requires WithDataRaw(s1, d1, m1).Some? && WithDataRaw(s1, d1, m1) == WithDataRaw(s2, d2, m2)
    ensures s1 == s2 && d1 == d2 && m1 == m2
  {
    PackReadsBack(s1, d1, m1);
    PackReadsBack(s2, d2, m2);
  }

  /** Every event on a non-negative descriptor is the packing of what it reads as. */
  lemma UnpackRepacks(e: EpollEvent)
    requires Fd(e) >= 0
    ensures WithDataRaw(Fd(e), Data(e), e.events) == Some(e)
  {
    assert e.data == (e.data / TWO_32) * TWO_32 + e.data % TWO_32;
  }

  /** `PartialEq for Events` compares descriptor, datum and mask; that is equality of
      the underlying kernel events, for negative descriptors too. */
  lemma EventsEquality(a: EpollEvent, b: EpollEvent)
    ensures Fd(a) == Fd(b) && Data(a) == Data(b) && a.events == b.events <==> a == b
  {
    assert a.data == (a.data / TWO_32) * TWO_32 + a.data % TWO_32;
    assert b.data == (b.data / TWO_32) * TWO_32 + b.data % TWO_32;
  }
}
