/** The hand-off between connection handlers and workers: a collector that
    stamps each request with the time it is pushed and appends a copy of it to
    the bounded pipeline queue. */
module Collection {
  import opened Common

  /** A request owned by the caller of Collect and passed by reference, so
      that the stamp Collect writes is visible to the caller afterwards. */
  class RequestHandle {
    var value: CollectRequest

    constructor (value: CollectRequest)
      ensures this.value == value
    {
      this.value := value;
    }
  }

  /** The collector and its channel: `ch` holds the queued requests, oldest
      first, and never holds more than `capacity` of them. */
  class ChannelCollector {
    var ch: seq<CollectRequest>
    const capacity: nat

    ghost predicate Valid()
      reads this
    {
      |ch| <= capacity
    }

    constructor (capacity: nat)
      ensures Valid()
      ensures this.capacity == capacity && ch == []
    {
      this.capacity := capacity;
      ch := [];
    }

    /** Stamps `req` with `now` and enqueues a copy of it. A send on a full
        channel blocks until a worker takes a request; the model asks for
        room instead. The result is always no error. */
    method Collect(req: RequestHandle, now: int) returns (err: Option<string>)
      requires Valid() && |ch| < capacity
      modifies this, req
      ensures Valid()
      ensures req.value == old(req.value).(timePushed := now)
      ensures ch == old(ch) + [req.value]
      ensures err == None
    {
      req.value := req.value.(timePushed := now);
      ch := ch + [req.value];
      err := None;
    }
  }

  /** Two Collect calls made one after the other by the same caller leave their
      requests at the tail of the queue in call order, each carrying its own
      stamp, and leave every earlier entry where it was. This holds also when
      the same request is collected twice: each push enqueues its own copy. */
  method CollectInOrder(c: ChannelCollector, first: RequestHandle, second: RequestHandle, t1: int, t2: int)
    requires c.Valid() && |c.ch| + 2 <= c.capacity
    modifies c, first, second
    ensures c.Valid()
    ensures c.ch == old(c.ch) + [old(first.value).(timePushed := t1), old(second.value).(timePushed := t2)]
  {
    var e1 := c.Collect(first, t1);
    var e2 := c.Collect(second, t2);
  }
}
