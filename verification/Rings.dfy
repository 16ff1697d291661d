/** Bounded rings that drop on overflow. */
module Rings {
  import opened Types

  datatype Ring = Ring(capacity: nat, queue: seq<Event>, dropped: nat)

  function EmptyRing(capacity: nat): Ring {
    Ring(capacity, [], 0)
  }

  /** A send succeeds on a connected ring below capacity. */
  predicate Accepts(r: Ring, connected: bool) {
    connected && |r.queue| < r.capacity
  }

  /** A send never blocks: it fails on a full ring, which is counted, or on a disconnected one,
      which is not. */
  function Send(r: Ring, e: Event, connected: bool): Ring {
    if Accepts(r, connected) then r.(queue := r.queue + [e])
    else if connected then r.(dropped := r.dropped + 1)
    else r
  }

  /** A receive takes the oldest event. */
  function Receive(r: Ring): Ring
    requires r.queue != []
  {
    r.(queue := r.queue[1..])
  }

  /** The ring's two halves as the receiver and the dispatcher share them. */
  class EventRing {
    const capacity: nat
    var queue: seq<Event>
    var dropped: nat
    var connected: bool

    ghost function View(): Ring
      reads this
    {
      Ring(capacity, queue, dropped)
    }

    ghost predicate Valid()
      reads this
    {
      0 < capacity && |queue| <= capacity
    }

    constructor (capacity: nat)
      requires capacity > 0
      ensures Valid() && View() == EmptyRing(capacity) && connected
    {
      this.capacity := capacity;
      queue, dropped, connected := [], 0, true;
    }

    method TrySend(e: Event) returns (ok: bool)
      requires Valid()
      modifies this`queue, this`dropped
      ensures Valid()
      ensures ok <==> connected && old(|queue|) < capacity
      ensures queue == if ok then old(queue) + [e] else old(queue)
      ensures dropped == old(dropped) + (if connected && !ok then 1 else 0)
      ensures View() == Send(old(View()), e, connected)
    {
      if !connected {
        return false;
      }
      if |queue| >= capacity {
        dropped := dropped + 1;
        return false;
      }
      queue := queue + [e];
      return true;
    }

    method TryRecv() returns (r: Option<Event>)
      requires Valid()
      modifies this`queue
      ensures Valid()
      ensures r == None <==> old(queue) == []
      ensures r.Some? ==> old(queue) == [r.value] + queue && View() == Receive(old(View()))
      ensures r == None ==> View() == old(View())
    {
      if queue == [] {
        return None;
      }
      r := Some(queue[0]);
      queue := queue[1..];
    }
  }
}
