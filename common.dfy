/** Records shared by the websocket handler, the collector and the workers, and
    the trace of observable actions (metrics, collector calls, socket writes,
    bulk publishes) that the sequential cores produce. */
module Common {

  datatype Option<+T> = None | Some(value: T)

  datatype Result<+T, +E> = Ok(value: T) | Err(error: E)

  newtype byte = x: int | 0 <= x < 256

  /** The identity a connection carries from upgrade to close. */
  datatype Identifier = Identifier(id: string, group: string)

  /** One client event: its payload and its type label. */
  datatype Event = Event(eventBytes: seq<byte>, eventType: string)

  /** A decoded client batch; `sentTimeSeconds` is the Seconds field of its SentTime. */
  datatype SendEventRequest = SendEventRequest(reqGuid: string, sentTimeSeconds: int, events: seq<Event>)

  /** The unit of work on the pipeline queue (the worker reads the same four
      fields under the name EventsBatch). Times are Unix milliseconds. */
  datatype CollectRequest = CollectRequest(
    connectionIdentifier: Identifier,
    timeConsumed: int,
    timePushed: int,
    sendEventRequest: SendEventRequest)

  /** Go's zero time.Time (January 1 of year 1, UTC) in Unix milliseconds:
      the TimePushed of a request that has not been through Collect yet. */
  const ZeroTime: int := -62135596800000

  /** One call into the metrics sink. */
  datatype Metric =
    | Increment(name: string, tags: string)
    | Count(name: string, value: int, tags: string)
    | Timing(name: string, millis: int, tags: string)

  /** Everything a core does that another component can observe. */
  datatype Action =
    | Emit(metric: Metric)
    | Collect(request: CollectRequest)
    | Write(messageType: int, payload: seq<byte>)
    | Publish(events: seq<Event>)

  predicate IsWrite(a: Action) { a.Write? }
  predicate IsCollect(a: Action) { a.Collect? }
  predicate IsPublish(a: Action) { a.Publish? }
  predicate IsTiming(a: Action) { a.Emit? && a.metric.Timing? }

  predicate HasPrefix(s: string, prefix: string) {
    |prefix| <= |s| && s[..|prefix|] == prefix
  }

  /** The actions of `trace` that satisfy `keep`, in trace order. */
  function Filter(trace: seq<Action>, keep: Action -> bool): (r: seq<Action>)
    ensures |r| <= |trace|
    ensures forall a | a in r :: a in trace && keep(a)
  {
    if trace == [] then []
    else (if keep(trace[0]) then [trace[0]] else []) + Filter(trace[1..], keep)
  }

  /** How many times `trace` increments the counter `name`. */
  function Increments(trace: seq<Action>, name: string): (n: nat)
    ensures n <= |trace|
  {
    if trace == [] then 0
    else (if trace[0].Emit? && trace[0].metric.Increment? && trace[0].metric.name == name then 1 else 0)
         + Increments(trace[1..], name)
  }

  /** The total that `trace` adds to the counter `name` through tags starting with `tagPrefix`. */
  function CountTotal(trace: seq<Action>, name: string, tagPrefix: string): int
  {
    if trace == [] then 0
    else (if trace[0].Emit? && trace[0].metric.Count? && trace[0].metric.name == name
             && HasPrefix(trace[0].metric.tags, tagPrefix)
          then trace[0].metric.value else 0)
         + CountTotal(trace[1..], name, tagPrefix)
  }

  lemma {:induction false} FilterConcat(a: seq<Action>, b: seq<Action>, keep: Action -> bool)
    ensures Filter(a + b, keep) == Filter(a, keep) + Filter(b, keep)
  {
    if a != [] {
      assert (a + b)[1..] == a[1..] + b;
      FilterConcat(a[1..], b, keep);
    } else {
      assert a + b == b;
    }
  }

  lemma {:induction false} IncrementsConcat(a: seq<Action>, b: seq<Action>, name: string)
    ensures Increments(a + b, name) == Increments(a, name) + Increments(b, name)
  {
    if a != [] {
      assert (a + b)[1..] == a[1..] + b;
      IncrementsConcat(a[1..], b, name);
    } else {
      assert a + b == b;
    }
  }

  lemma {:induction false} CountTotalConcat(a: seq<Action>, b: seq<Action>, name: string, tagPrefix: string)
    ensures CountTotal(a + b, name, tagPrefix) == CountTotal(a, name, tagPrefix) + CountTotal(b, name, tagPrefix)
  {
    if a != [] {
      assert (a + b)[1..] == a[1..] + b;
      CountTotalConcat(a[1..], b, name, tagPrefix);
    } else {
      assert a + b == b;
    }
  }
}
