/** Stand-ins for the process-wide services the engine reads: `uuid.uuid4`
    and `datetime.now`. */
module Environment {
  import opened Values

  /** uuid4 as a source of fresh identifiers: every call returns a value
      never returned before. */
  class Uuid {
    var next: Id

    constructor (start: Id)
      ensures next == start
    {
      next := start;
    }

    method New() returns (id: Id)
      modifies this
      ensures id == old(next) && next == old(next) + 1
    {
      id := next;
      next := next + 1;
    }
  }

  /** The wall clock. Only waiting advances it: the task runner's latency
      and the sleeps of the polling loop. */
  class Clock {
    var now: Time

    constructor (start: Time)
      ensures now == start
    {
      now := start;
    }

    method Advance(seconds: nat)
      modifies this
      ensures now == old(now) + seconds
    {
      now := now + seconds;
    }
  }
}
