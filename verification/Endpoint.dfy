// The channel between remote endpoints and the manager, as the object they share
// (src/endpoint.rs). Here one thread moves at a time; module Protocol interleaves them.

module Endpoint {
  import opened EventData
  import opened Index
  import opened Closures
  import opened Protocol

  class EventManagerChannel<T, W, V> {
    var queue: seq<Message<T, W, V>>
    var counter: nat
    var replies: map<nat, V>
    var nextCall: nat

    constructor ()
      ensures queue == [] && counter == 0 && replies == map[] && nextCall == 0
    {
      queue, counter, replies, nextCall := [], 0, map[], 0;
    }

    /** `RemoteEndpoint::send`. The message stays queued even if the notification fails. */
    method Send(msg: Message<T, W, V>) returns (res: Result)
      modifies this`queue, this`counter
      ensures queue == old(queue) + [msg]
      ensures counter == if old(counter) < 0xffff_ffff_ffff_fffe then old(counter) + 1 else old(counter)
      ensures res == if old(counter) < 0xffff_ffff_ffff_fffe then Ok else Err(EventFd)
    {
      queue := queue + [msg];
      res := Kick();
    }

    /** The part of `call_blocking` before it blocks: on success, the reply channel. */
    method CallBlocking(code: W -> Closure<T, W, V>) returns (call: nat, res: Result)
      modifies this
      ensures call == old(nextCall) && nextCall == call + 1
      ensures queue == old(queue) + [Message(code, Some(call))] && replies == old(replies)
      ensures counter == if old(counter) < 0xffff_ffff_ffff_fffe then old(counter) + 1 else old(counter)
      ensures res == if old(counter) < 0xffff_ffff_ffff_fffe then Ok else Err(EventFd)
    {
      call := nextCall;
      nextCall := nextCall + 1;
      res := Send(Message(code, Some(call)));
    }

    method Fire(code: W -> Closure<T, W, V>) returns (res: Result)
      modifies this`queue, this`counter
      ensures queue == old(queue) + [Message(code, None)]
      ensures counter == if old(counter) < 0xffff_ffff_ffff_fffe then old(counter) + 1 else old(counter)
      ensures res == if old(counter) < 0xffff_ffff_ffff_fffe then Ok else Err(EventFd)
    {
      res := Send(Message(code, None));
    }

    method Kick() returns (res: Result)
      modifies this`counter
      ensures counter == if old(counter) < 0xffff_ffff_ffff_fffe then old(counter) + 1 else old(counter)
      ensures res == if old(counter) < 0xffff_ffff_ffff_fffe then Ok else Err(EventFd)
    {
      var (n, ok) := Bump(counter);
      counter := n;
      res := if ok then Ok else Err(EventFd);
    }

    /** `event_fd.read()`: the counter is reset; an error when it was zero is ignored. */
    method ReadEventFd()
      modifies this`counter
      ensures counter == 0
    {
      counter := 0;
    }

    method TryRecv() returns (msg: Option<Message<T, W, V>>)
      modifies this`queue
      ensures old(queue) == [] ==> msg.None? && queue == []
      ensures old(queue) != [] ==> msg == Some(old(queue)[0]) && queue == old(queue)[1..]
    {
      if queue == [] {
        return None;
      }
      msg := Some(queue[0]);
      queue := queue[1..];
    }

    method Reply(call: nat, value: V)
      modifies this`replies
      ensures replies == old(replies)[call := value]
    {
      replies := replies[call := value];
    }
  }
}
