// The table of subscribers and the source of their ids (src/subscribers.rs).

module SubscriberTable {
  import opened EventData
  import opened Closures

  class Subscribers<T> {
    var subscribers: map<U64, T>
    var nextId: U64

    constructor ()
      ensures subscribers == map[] && nextId == 1
    {
      subscribers := map[];
      nextId := 1;
    }

    /** No id when the increment overflows, which panics before anything is inserted. */
    method Add(subscriber: T) returns (id: Option<U64>)
      modifies this
      ensures old(nextId) == U64_MAX ==> id.None? && subscribers == old(subscribers) && nextId == old(nextId)
      ensures old(nextId) < U64_MAX ==>
                && id == Some(old(nextId)) && nextId == old(nextId) + 1
                && subscribers == old(subscribers)[old(nextId) := subscriber]
    {
      if nextId == U64_MAX {
        return None;
      }
      id := Some(nextId);
      nextId := nextId + 1;
      subscribers := subscribers[id.value := subscriber];
    }

    method Remove(id: U64) returns (subscriber: Option<T>)
      modifies this`subscribers
      ensures subscriber == if id in old(subscribers) then Some(old(subscribers)[id]) else None
      ensures subscribers == old(subscribers) - {id}
    {
      subscriber := if id in subscribers then Some(subscribers[id]) else None;
      subscribers := subscribers - {id};
    }

    method Contains(id: U64) returns (found: bool)
      ensures found <==> id in subscribers
    {
      found := id in subscribers;
    }

    /** `get_mut(&id).unwrap()`: callers must know that the id is registered. */
    method GetMutUnchecked(id: U64) returns (subscriber: T)
      requires id in subscribers
      ensures subscriber == subscribers[id]
    {
      subscriber := subscribers[id];
    }

    /** A write through the reference that `get_mut_unchecked` returned. */
    method Store(id: U64, subscriber: T)
      requires id in subscribers
      modifies this`subscribers
      ensures subscribers == old(subscribers)[id := subscriber]
    {
      subscribers := subscribers[id := subscriber];
    }
  }
}
