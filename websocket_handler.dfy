/** The per-connection read loop of the websocket handler: each frame read
    from the connection is decoded with the codec of its frame type, counted,
    handed to the collector and answered on the same frame type; a read error
    ends the loop. */
module WebsocketHandler {
  import opened Common

  // Frame type codes of the websocket library.
  const TextMessage: int := 1
  const BinaryMessage: int := 2

  // Close codes that count as an expected closure.
  const CloseNormalClosure: int := 1000
  const CloseGoingAway: int := 1001
  const CloseNoStatusReceived: int := 1005
  const CloseAbnormalClosure: int := 1006

  const BatchesReadTotal: string := "batches_read_total"
  const EventsRxBytesTotal: string := "events_rx_bytes_total"
  const EventsRxTotal: string := "events_rx_total"
  const BadRequestPrefix: string := "cannot deserialize request: "

  datatype Serializer = SerializeProto | SerializeJSON
  datatype Deserializer = DeserializeProto | DeserializeJSON

  /** The codec pair bound to one frame type. */
  datatype SerDe = SerDe(serializer: Serializer, deserializer: Deserializer)

  datatype Status = StatusSuccess | StatusError
  datatype Code = CodeOk | CodeBadRequest

  /** The response sent back for every data frame; `sentTime` is in Unix seconds.
      A nil Data map is the empty map. */
  datatype SendEventResponse = SendEventResponse(
    status: Status,
    code: Code,
    sentTime: int,
    reason: string,
    data: map<string, string>)

  /** What a serializer returns; the handler writes the bytes and ignores the error. */
  datatype Encoded = Encoded(bytes: seq<byte>, err: Option<string>)

  /** The proto and JSON codecs, which lie outside this model. */
  datatype Codecs = Codecs(
    serializeProto: SendEventResponse -> Encoded,
    serializeJSON: SendEventResponse -> Encoded,
    deserializeProto: seq<byte> -> Result<SendEventRequest, string>,
    deserializeJSON: seq<byte> -> Result<SendEventRequest, string>)

  function Serialize(c: Codecs, s: Serializer, response: SendEventResponse): seq<byte>
  {
    match s
    case SerializeProto => c.serializeProto(response).bytes
    case SerializeJSON => c.serializeJSON(response).bytes
  }

  function Deserialize(c: Codecs, d: Deserializer, message: seq<byte>): Result<SendEventRequest, string>
  {
    match d
    case DeserializeProto => c.deserializeProto(message)
    case DeserializeJSON => c.deserializeJSON(message)
  }

  /** The handler's fixed configuration: its codec map and the codecs. */
  datatype Handler = Handler(serdeMap: map<int, SerDe>, codecs: Codecs)

  /** Why reading a frame failed: a close frame with its code, or anything else. */
  datatype ReadError = CloseError(code: int, text: string) | OtherError(text: string)

  /** What one call to read the next frame returns. */
  datatype Frame = ReadFailure(err: ReadError) | Message(messageType: int, message: seq<byte>)

  /** Clock readings taken while handling one frame, in Unix milliseconds:
      before decoding, and when the response is built. */
  datatype Clock = Clock(consumedAt: int, respondedAt: int)

  /** Builds the codec map: binary frames use the proto pair, text frames the JSON pair. */
  method GetSerDeMap() returns (serDeMap: map<int, SerDe>)
    ensures serDeMap.Keys == {BinaryMessage, TextMessage}
    ensures serDeMap[BinaryMessage] == SerDe(SerializeProto, DeserializeProto)
    ensures serDeMap[TextMessage] == SerDe(SerializeJSON, DeserializeJSON)
  {
    serDeMap := map[];
    serDeMap := serDeMap[BinaryMessage := SerDe(SerializeProto, DeserializeProto)];
    serDeMap := serDeMap[TextMessage := SerDe(SerializeJSON, DeserializeJSON)];
  }

  /** The codec map as the handler is built with it. */
  predicate StandardCodecMap(h: Handler)
  {
    && h.serdeMap.Keys == {BinaryMessage, TextMessage}
    && h.serdeMap[BinaryMessage] == SerDe(SerializeProto, DeserializeProto)
    && h.serdeMap[TextMessage] == SerDe(SerializeJSON, DeserializeJSON)
  }

  /** Builds a handler around the codec map of GetSerDeMap. */
  method NewHandler(codecs: Codecs) returns (h: Handler)
    ensures StandardCodecMap(h) && h.codecs == codecs
  {
    var serdeMap := GetSerDeMap();
    h := Handler(serdeMap, codecs);
  }

  /** The websocket library's read call only ever returns binary and text data frames. */
  predicate DataFrameTypes(frames: seq<Frame>)
  {
    forall i | 0 <= i < |frames| :: frames[i].Message? ==> frames[i].messageType in {BinaryMessage, TextMessage}
  }

  /** With the handler's own codec map, every frame the library returns finds
      its codec pair, and a frame of any other type would find none. */
  lemma StandardTypesKnown(h: Handler, frames: seq<Frame>)
    requires StandardCodecMap(h)
    ensures DataFrameTypes(frames) <==> KnownTypes(h, frames)
  {
  }

  /** A read error with one of the four expected close codes. */
  predicate IsExpectedClose(e: ReadError)
  {
    e.CloseError? && e.code in {CloseGoingAway, CloseNormalClosure, CloseNoStatusReceived, CloseAbnormalClosure}
  }

  /** The counter a read error produces: `closeerror` for an expected close, `unknown` otherwise. */
  function ReadFailureMetric(e: ReadError, group: string): (m: Metric)
    ensures m.Increment? && m.name == BatchesReadTotal
    ensures IsExpectedClose(e) <==> m.tags == "status=failed,reason=closeerror,conn_group=" + group
    ensures !IsExpectedClose(e) <==> m.tags == "status=failed,reason=unknown,conn_group=" + group
  {
    var closeTags := "status=failed,reason=closeerror,conn_group=" + group;
    var unknownTags := "status=failed,reason=unknown,conn_group=" + group;
    assert closeTags[21] != unknownTags[21];
    if IsExpectedClose(e) then Increment(BatchesReadTotal, closeTags)
    else Increment(BatchesReadTotal, unknownTags)
  }

  /** Unix seconds of a time given in Unix milliseconds. */
  function UnixSeconds(ms: int): (s: int)
    ensures s * 1000 <= ms < s * 1000 + 1000
  {
    ms / 1000
  }

  function SuccessResponse(requestGUID: string, now: int): (r: SendEventResponse)
    ensures r.status == StatusSuccess && r.code == CodeOk && r.reason == ""
    ensures r.data.Keys == {"req_guid"} && r.data["req_guid"] == requestGUID
    ensures r.sentTime == UnixSeconds(now)
  {
    SendEventResponse(StatusSuccess, CodeOk, UnixSeconds(now), "", map["req_guid" := requestGUID])
  }

  function BadRequestResponse(err: string, now: int): (r: SendEventResponse)
    ensures r.status == StatusError && r.code == CodeBadRequest && r.data == map[]
    ensures HasPrefix(r.reason, BadRequestPrefix) && r.reason[|BadRequestPrefix|..] == err
    ensures r.sentTime == UnixSeconds(now)
  {
    var reason := BadRequestPrefix + err;
    assert reason[..|BadRequestPrefix|] == BadRequestPrefix;
    assert reason[|BadRequestPrefix|..] == err;
    SendEventResponse(StatusError, CodeBadRequest, UnixSeconds(now), reason, map[])
  }

  /** The one write that answers a frame that decoded. */
  function WriteSuccessResponse(c: Codecs, s: Serializer, messageType: int, requestGUID: string, now: int): (a: Action)
    ensures a.Write? && a.messageType == messageType
  {
    Write(messageType, Serialize(c, s, SuccessResponse(requestGUID, now)))
  }

  /** The one write that answers a frame that did not decode. */
  function WriteBadRequestResponse(c: Codecs, s: Serializer, messageType: int, err: string, now: int): (a: Action)
    ensures a.Write? && a.messageType == messageType
  {
    Write(messageType, Serialize(c, s, BadRequestResponse(err, now)))
  }

  function EventTags(group: string, eventType: string): string
  {
    "conn_group=" + group + ",event_type=" + eventType
  }

  /** The two counters one received event produces: its byte count, then one increment. */
  function EventTally(e: Event, group: string): seq<Action>
  {
    [Emit(Count(EventsRxBytesTotal, |e.eventBytes|, EventTags(group, e.eventType))),
     Emit(Increment(EventsRxTotal, EventTags(group, e.eventType)))]
  }

  /** The counters for a whole batch of events, in event order. */
  function EventCounters(events: seq<Event>, group: string): (acts: seq<Action>)
    ensures |acts| == 2 * |events|
    decreases |events|
  {
    if events == [] then []
    else EventCounters(events[..|events| - 1], group) + EventTally(events[|events| - 1], group)
  }

  function TotalBytes(events: seq<Event>): nat
    decreases |events|
  {
    if events == [] then 0
    else TotalBytes(events[..|events| - 1]) + |events[|events| - 1].eventBytes|
  }

  method SendEventCounters(events: seq<Event>, group: string) returns (metrics: seq<Action>)
    ensures metrics == EventCounters(events, group)
  {
    metrics := [];
    for i := 0 to |events|
      invariant metrics == EventCounters(events[..i], group)
    {
      assert events[..i + 1][..i] == events[..i];
      metrics := metrics + EventTally(events[i], group);
    }
    assert events[..|events|] == events;
  }

  /** The counters of a single event, evaluated. */
  lemma TallyTotals(e: Event, group: string)
    ensures Increments(EventTally(e, group), EventsRxTotal) == 1
    ensures Increments(EventTally(e, group), BatchesReadTotal) == 0
    ensures CountTotal(EventTally(e, group), EventsRxBytesTotal, "") == |e.eventBytes|
    ensures Filter(EventTally(e, group), IsWrite) == []
    ensures Filter(EventTally(e, group), IsCollect) == []
  {
    var tally := EventTally(e, group);
    assert tally[1..][1..] == [];
    assert HasPrefix(tally[0].metric.tags, "");
    assert CountTotal(tally[1..], EventsRxBytesTotal, "") == 0;
    assert Increments(tally[1..], EventsRxTotal) == 1;
    assert BatchesReadTotal[0] != EventsRxTotal[0];
  }

  /** Each event is counted once with its own type, and the byte counter grows
      by the total payload size; the counters contain no write and no collect. */
  lemma {:induction false} EventCountersTotals(events: seq<Event>, group: string)
    ensures Increments(EventCounters(events, group), EventsRxTotal) == |events|
    ensures Increments(EventCounters(events, group), BatchesReadTotal) == 0
    ensures CountTotal(EventCounters(events, group), EventsRxBytesTotal, "") == TotalBytes(events)
    ensures Filter(EventCounters(events, group), IsWrite) == []
    ensures Filter(EventCounters(events, group), IsCollect) == []
    decreases |events|
  {
    if events != [] {
      var init, last := events[..|events| - 1], events[|events| - 1];
      EventCountersTotals(init, group);
      var tally := EventTally(last, group);
      TallyTotals(last, group);
      IncrementsConcat(EventCounters(init, group), tally, EventsRxTotal);
      IncrementsConcat(EventCounters(init, group), tally, BatchesReadTotal);
      CountTotalConcat(EventCounters(init, group), tally, EventsRxBytesTotal, "");
      FilterConcat(EventCounters(init, group), tally, IsWrite);
      FilterConcat(EventCounters(init, group), tally, IsCollect);
    }
  }

  /** Every data frame's type has a codec pair in the map. */
  predicate KnownTypes(h: Handler, frames: seq<Frame>)
  {
    forall i | 0 <= i < |frames| :: frames[i].Message? ==> frames[i].messageType in h.serdeMap
  }

  predicate NoReadFailure(frames: seq<Frame>)
  {
    forall i | 0 <= i < |frames| :: frames[i].Message?
  }

  /** A frame that decoded: counted as read, its events counted, handed to the
      collector, and answered with a success response. */
  function Accepted(c: Codecs, s: Serializer, conn: Identifier, messageType: int, payload: SendEventRequest, clock: Clock)
    : seq<Action>
  {
    [Emit(Increment(BatchesReadTotal, "status=success,conn_group=" + conn.group))]
    + EventCounters(payload.events, conn.group)
    + [Collect(CollectRequest(conn, clock.consumedAt, ZeroTime, payload)),
       WriteSuccessResponse(c, s, messageType, payload.reqGuid, clock.respondedAt)]
  }

  /** A frame that did not decode: counted as a serde failure and answered with a bad request. */
  function Rejected(c: Codecs, s: Serializer, conn: Identifier, messageType: int, err: string, clock: Clock)
    : seq<Action>
  {
    [Emit(Increment(BatchesReadTotal, "status=failed,reason=serde,conn_group=" + conn.group)),
     WriteBadRequestResponse(c, s, messageType, err, clock.respondedAt)]
  }

  /** What handling one frame does. */
  function Step(h: Handler, conn: Identifier, frame: Frame, clock: Clock): seq<Action>
    requires frame.Message? ==> frame.messageType in h.serdeMap
  {
    match frame
    case ReadFailure(e) => [Emit(ReadFailureMetric(e, conn.group))]
    case Message(messageType, message) =>
      var serde := h.serdeMap[messageType];
      match Deserialize(h.codecs, serde.deserializer, message)
      case Err(err) => Rejected(h.codecs, serde.serializer, conn, messageType, err, clock)
      case Ok(payload) => Accepted(h.codecs, serde.serializer, conn, messageType, payload, clock)
  }

  /** The read loop for a given way of handling one frame: every frame up to
      and including the first read failure is handled, the rest are never read. */
  function Run(step: (Frame, Clock) -> seq<Action>, frames: seq<Frame>, clocks: seq<Clock>): seq<Action>
    requires |clocks| == |frames|
    decreases |frames|
  {
    if frames == [] then []
    else step(frames[0], clocks[0]) + (if frames[0].ReadFailure? then [] else Run(step, frames[1..], clocks[1..]))
  }

  /** Step as a value. Frame types without a codec pair never reach it when
      KnownTypes holds; they get the empty sequence only to make it total. */
  function StepOf(h: Handler, conn: Identifier): (Frame, Clock) -> seq<Action>
  {
    (frame: Frame, clock: Clock) =>
      if frame.Message? && frame.messageType !in h.serdeMap then [] else Step(h, conn, frame, clock)
  }

  /** What the read loop of connection `conn` does with `frames`. */
  function Session(h: Handler, conn: Identifier, frames: seq<Frame>, clocks: seq<Clock>): seq<Action>
    requires |clocks| == |frames|
  {
    Run(StepOf(h, conn), frames, clocks)
  }

  /** How many frames the loop reads: through the first read failure, or all of them. */
  function FramesRead(frames: seq<Frame>): (n: nat)
    ensures n <= |frames|
    ensures NoReadFailure(frames) ==> n == |frames|
    ensures !NoReadFailure(frames) ==> 0 < n && frames[n - 1].ReadFailure? && NoReadFailure(frames[..n - 1])
    decreases |frames|
  {
    if frames == [] then 0
    else if frames[0].ReadFailure? then 1
    else
      var n := 1 + FramesRead(frames[1..]);
      assert forall i | 1 <= i < |frames| :: frames[i] == frames[1..][i - 1];
      assert NoReadFailure(frames[1..]) ==> NoReadFailure(frames);
      assert n > 1 ==> frames[..n - 1][1..] == frames[1..][..n - 2];
      n
  }

  /** The first read failure, at position `k`, is the last frame read. */
  lemma FramesReadAt(frames: seq<Frame>, k: nat)
    requires k < |frames| && NoReadFailure(frames[..k]) && frames[k].ReadFailure?
    ensures FramesRead(frames) == k + 1
    decreases k
  {
  }

  lemma NoReadFailureExtend(frames: seq<Frame>, k: nat)
    requires k < |frames| && NoReadFailure(frames[..k]) && frames[k].Message?
    ensures NoReadFailure(frames[..k + 1])
  {
  }

  /** The loop over frames without a read failure in the first `k` splits there. */
  lemma {:induction false} RunSplit(step: (Frame, Clock) -> seq<Action>, frames: seq<Frame>, clocks: seq<Clock>, k: nat)
    requires |clocks| == |frames| && k <= |frames| && NoReadFailure(frames[..k])
    ensures Run(step, frames, clocks) == Run(step, frames[..k], clocks[..k]) + Run(step, frames[k..], clocks[k..])
    decreases k
  {
    if k == 0 {
      assert frames[..0] == [] && frames[0..] == frames && clocks[0..] == clocks;
    } else {
      assert frames[..k][0] == frames[0];
      var fs, cs := frames[1..], clocks[1..];
      assert fs[..k - 1] == frames[..k][1..] && cs[..k - 1] == clocks[..k][1..];
      assert fs[k - 1..] == frames[k..] && cs[k - 1..] == clocks[k..];
      RunSplit(step, fs, cs, k - 1);
    }
  }

  /** A loop that reads one frame and stops there does that frame's step. */
  lemma RunOfOne(step: (Frame, Clock) -> seq<Action>, frames: seq<Frame>, clocks: seq<Clock>)
    requires |clocks| == |frames| && (|frames| == 1 || (|frames| > 1 && frames[0].ReadFailure?))
    ensures Run(step, frames, clocks) == step(frames[0], clocks[0])
  {
  }

  /** Reading one more frame after a prefix without read failures adds that frame's step. */
  lemma RunExtend(step: (Frame, Clock) -> seq<Action>, frames: seq<Frame>, clocks: seq<Clock>, k: nat)
    requires |clocks| == |frames| && k < |frames| && NoReadFailure(frames[..k])
    ensures Run(step, frames[..k + 1], clocks[..k + 1]) == Run(step, frames[..k], clocks[..k]) + step(frames[k], clocks[k])
  {
    var fs, cs := frames[..k + 1], clocks[..k + 1];
    assert fs[..k] == frames[..k] && cs[..k] == clocks[..k];
    RunSplit(step, fs, cs, k);
    RunOfOne(step, fs[k..], cs[k..]);
  }

  /** The loop stops at the first read failure, after handling it. */
  lemma RunStop(step: (Frame, Clock) -> seq<Action>, frames: seq<Frame>, clocks: seq<Clock>, k: nat)
    requires |clocks| == |frames| && k < |frames| && NoReadFailure(frames[..k]) && frames[k].ReadFailure?
    ensures Run(step, frames, clocks) == Run(step, frames[..k], clocks[..k]) + step(frames[k], clocks[k])
    ensures Run(step, frames, clocks) == Run(step, frames[..k + 1], clocks[..k + 1])
  {
    RunSplit(step, frames, clocks, k);
    RunOfOne(step, frames[k..], clocks[k..]);
    RunExtend(step, frames, clocks, k);
  }

  /** Handling the frame at position `k`, after a prefix without read
      failures, extends the session of that prefix by the frame's own actions;
      after a data frame the prefix still has no read failure, and after a read
      failure the session is complete with `k + 1` frames read. */
  lemma SessionStep(h: Handler, conn: Identifier, frames: seq<Frame>, clocks: seq<Clock>, k: nat, acts: seq<Action>)
    requires |clocks| == |frames| && k < |frames| && NoReadFailure(frames[..k])
    requires acts == StepOf(h, conn)(frames[k], clocks[k])
    ensures Session(h, conn, frames[..k + 1], clocks[..k + 1]) == Session(h, conn, frames[..k], clocks[..k]) + acts
    ensures frames[k].Message? ==> NoReadFailure(frames[..k + 1])
    ensures frames[k].ReadFailure? ==>
              Session(h, conn, frames, clocks) == Session(h, conn, frames[..k + 1], clocks[..k + 1])
              && FramesRead(frames) == k + 1
  {
    RunExtend(StepOf(h, conn), frames, clocks, k);
    if frames[k].Message? {
      NoReadFailureExtend(frames, k);
    } else {
      RunStop(StepOf(h, conn), frames, clocks, k);
      FramesReadAt(frames, k);
    }
  }

  /** A read failure at position `k`, the first one, ends the session: the
      frames after it are never read, the last thing done is the counter that
      classifies the failure, and exactly `k + 1` frames were read. */
  lemma ReadFailureEndsSession(h: Handler, conn: Identifier, frames: seq<Frame>, clocks: seq<Clock>, k: nat)
    requires |clocks| == |frames|
    requires k < |frames| && NoReadFailure(frames[..k]) && frames[k].ReadFailure?
    ensures Session(h, conn, frames, clocks)
         == Session(h, conn, frames[..k], clocks[..k]) + [Emit(ReadFailureMetric(frames[k].err, conn.group))]
    ensures Session(h, conn, frames, clocks) == Session(h, conn, frames[..k + 1], clocks[..k + 1])
    ensures FramesRead(frames) == k + 1
  {
    RunStop(StepOf(h, conn), frames, clocks, k);
    StepOfReadFailure(h, conn, frames[k], clocks[k]);
    FramesReadAt(frames, k);
  }

  lemma StepOfReadFailure(h: Handler, conn: Identifier, frame: Frame, clock: Clock)
    requires frame.ReadFailure?
    ensures StepOf(h, conn)(frame, clock) == [Emit(ReadFailureMetric(frame.err, conn.group))]
  {
  }

  /** A frame that does not decode is answered and the loop goes on: the
      session is what came before, the serde failure counter and the bad
      request response on the frame's own type, then the session of the frames
      after it. */
  lemma DecodeFailureContinues(h: Handler, conn: Identifier, frames: seq<Frame>, clocks: seq<Clock>, k: nat)
    requires |clocks| == |frames| && k < |frames| && NoReadFailure(frames[..k])
    requires frames[k].Message? && frames[k].messageType in h.serdeMap
    requires Deserialize(h.codecs, h.serdeMap[frames[k].messageType].deserializer, frames[k].message).Err?
    ensures var mt := frames[k].messageType;
            var err := Deserialize(h.codecs, h.serdeMap[mt].deserializer, frames[k].message).error;
            Session(h, conn, frames, clocks)
            == Session(h, conn, frames[..k], clocks[..k])
               + [Emit(Increment(BatchesReadTotal, "status=failed,reason=serde,conn_group=" + conn.group)),
                  Write(mt, Serialize(h.codecs, h.serdeMap[mt].serializer, BadRequestResponse(err, clocks[k].respondedAt)))]
               + Session(h, conn, frames[k + 1..], clocks[k + 1..])
  {
    RunSplit(StepOf(h, conn), frames, clocks, k);
    assert frames[k..][1..] == frames[k + 1..] && clocks[k..][1..] == clocks[k + 1..];
  }

  /** A frame that decodes does not end the loop either: the session is what
      came before, the accepted frame's actions (its counters, the collector
      call and the success response, serialized with its own type's codec and
      written on that type), then the session of the frames after it. */
  lemma DecodeSuccessContinues(h: Handler, conn: Identifier, frames: seq<Frame>, clocks: seq<Clock>, k: nat)
    requires |clocks| == |frames| && k < |frames| && NoReadFailure(frames[..k])
    requires frames[k].Message? && frames[k].messageType in h.serdeMap
    requires Deserialize(h.codecs, h.serdeMap[frames[k].messageType].deserializer, frames[k].message).Ok?
    ensures var mt := frames[k].messageType;
            var payload := Deserialize(h.codecs, h.serdeMap[mt].deserializer, frames[k].message).value;
            Session(h, conn, frames, clocks)
            == Session(h, conn, frames[..k], clocks[..k])
               + Accepted(h.codecs, h.serdeMap[mt].serializer, conn, mt, payload, clocks[k])
               + Session(h, conn, frames[k + 1..], clocks[k + 1..])
  {
    RunSplit(StepOf(h, conn), frames, clocks, k);
    assert frames[k..][1..] == frames[k + 1..] && clocks[k..][1..] == clocks[k + 1..];
  }

  /** What a decoded frame produces: one batches_read_total increment, one
      events_rx_total increment per event, one collector call carrying the
      connection identity and the time taken before decoding, and then, last,
      one success response. */
  lemma AcceptedAccounting(c: Codecs, s: Serializer, conn: Identifier, messageType: int, payload: SendEventRequest, clock: Clock)
    ensures var acts := Accepted(c, s, conn, messageType, payload, clock);
            && Increments(acts, BatchesReadTotal) == 1
            && Increments(acts, EventsRxTotal) == |payload.events|
            && Filter(acts, IsWrite) == [acts[|acts| - 1]]
            && acts[|acts| - 1] == Write(messageType, Serialize(c, s, SuccessResponse(payload.reqGuid, clock.respondedAt)))
            && Filter(acts, IsCollect) == [acts[|acts| - 2]]
            && acts[|acts| - 2] == Collect(CollectRequest(conn, clock.consumedAt, ZeroTime, payload))
  {
    EventCountersTotals(payload.events, conn.group);
    AcceptedShape(Emit(Increment(BatchesReadTotal, "status=success,conn_group=" + conn.group)),
      EventCounters(payload.events, conn.group),
      Collect(CollectRequest(conn, clock.consumedAt, ZeroTime, payload)),
      WriteSuccessResponse(c, s, messageType, payload.reqGuid, clock.respondedAt));
  }

  /** The counting behind AcceptedAccounting, for any actions of the same kinds. */
  lemma AcceptedShape(head: Action, counters: seq<Action>, collect: Action, response: Action)
    requires head.Emit? && head.metric.Increment? && head.metric.name == BatchesReadTotal
    requires Increments(counters, BatchesReadTotal) == 0
    requires Filter(counters, IsWrite) == [] && Filter(counters, IsCollect) == []
    requires collect.Collect? && response.Write?
    ensures var acts := [head] + counters + [collect, response];
            && Increments(acts, BatchesReadTotal) == 1
            && Increments(acts, EventsRxTotal) == Increments(counters, EventsRxTotal)
            && Filter(acts, IsWrite) == [response]
            && Filter(acts, IsCollect) == [collect]
  {
    var tail := [collect, response];
    assert BatchesReadTotal[0] != EventsRxTotal[0];
    assert tail[1..][1..] == [];
    IncrementsConcat([head], counters, BatchesReadTotal);
    IncrementsConcat([head] + counters, tail, BatchesReadTotal);
    IncrementsConcat([head], counters, EventsRxTotal);
    IncrementsConcat([head] + counters, tail, EventsRxTotal);
    FilterConcat([head], counters, IsWrite);
    FilterConcat([head] + counters, tail, IsWrite);
    FilterConcat([head], counters, IsCollect);
    FilterConcat([head] + counters, tail, IsCollect);
  }

  /** What a frame that does not decode produces: one batches_read_total
      increment, no event counter, no collector call, and one bad-request
      response. */
  lemma RejectedAccounting(c: Codecs, s: Serializer, conn: Identifier, messageType: int, err: string, clock: Clock)
    ensures var acts := Rejected(c, s, conn, messageType, err, clock);
            && Increments(acts, BatchesReadTotal) == 1
            && Increments(acts, EventsRxTotal) == 0
            && Filter(acts, IsWrite) == [Write(messageType, Serialize(c, s, BadRequestResponse(err, clock.respondedAt)))]
            && Filter(acts, IsCollect) == []
  {
  }

  /** What a read failure produces: one batches_read_total increment and nothing else. */
  lemma ReadFailureAccounting(h: Handler, conn: Identifier, err: ReadError, clock: Clock)
    ensures var acts := Step(h, conn, ReadFailure(err), clock);
            && Increments(acts, BatchesReadTotal) == 1
            && Increments(acts, EventsRxTotal) == 0
            && Filter(acts, IsWrite) == []
            && Filter(acts, IsCollect) == []
  {
  }

  /** The collector call one frame should cause: one for a data frame that
      decodes, carrying the connection identity, the frame's consumption time
      and the decoded batch, not yet stamped; none for any other frame. */
  function FrameCollect(h: Handler, conn: Identifier, frame: Frame, clock: Clock): seq<Action>
    requires frame.Message? ==> frame.messageType in h.serdeMap
  {
    if frame.ReadFailure? then []
    else
      match Deserialize(h.codecs, h.serdeMap[frame.messageType].deserializer, frame.message)
      case Ok(payload) => [Collect(CollectRequest(conn, clock.consumedAt, ZeroTime, payload))]
      case Err(_) => []
  }

  /** The collector calls a session should make, in frame order. */
  function ExpectedCollects(h: Handler, conn: Identifier, frames: seq<Frame>, clocks: seq<Clock>): seq<Action>
    requires |clocks| == |frames| && KnownTypes(h, frames)
    decreases |frames|
  {
    if frames == [] then []
    else if frames[0].ReadFailure? then FrameCollect(h, conn, frames[0], clocks[0])
    else FrameCollect(h, conn, frames[0], clocks[0]) + ExpectedCollects(h, conn, frames[1..], clocks[1..])
  }

  /** The number of events in the batches handed to the collector. */
  function CollectedEvents(collects: seq<Action>): nat
  {
    if collects == [] then 0
    else (if collects[0].Collect? then |collects[0].request.sendEventRequest.events| else 0)
         + CollectedEvents(collects[1..])
  }

  lemma {:induction false} CollectedEventsConcat(a: seq<Action>, b: seq<Action>)
    ensures CollectedEvents(a + b) == CollectedEvents(a) + CollectedEvents(b)
  {
    if a != [] {
      assert (a + b)[1..] == a[1..] + b;
      CollectedEventsConcat(a[1..], b);
    } else {
      assert a + b == b;
    }
  }

  /** How many data frames the loop reads before it stops. */
  function MessagesRead(frames: seq<Frame>): (n: nat)
    ensures n <= FramesRead(frames)
    decreases |frames|
  {
    if frames == [] || frames[0].ReadFailure? then 0 else 1 + MessagesRead(frames[1..])
  }

  /** Handling any one frame counts it once in batches_read_total, answers it
      if and only if it is a data frame, calls the collector exactly as
      FrameCollect says, and counts in events_rx_total the events of the batch
      it hands over. */
  lemma StepAccounting(h: Handler, conn: Identifier, frame: Frame, clock: Clock)
    requires frame.Message? ==> frame.messageType in h.serdeMap
    ensures var acts := Step(h, conn, frame, clock);
            && Increments(acts, BatchesReadTotal) == 1
            && |Filter(acts, IsWrite)| == (if frame.Message? then 1 else 0)
            && Filter(acts, IsCollect) == FrameCollect(h, conn, frame, clock)
            && Increments(acts, EventsRxTotal) == CollectedEvents(FrameCollect(h, conn, frame, clock))
  {
    match frame
    case ReadFailure(err) =>
      ReadFailureAccounting(h, conn, err, clock);
    case Message(messageType, message) =>
      var serde := h.serdeMap[messageType];
      match Deserialize(h.codecs, serde.deserializer, message)
      case Ok(payload) =>
        AcceptedAccounting(h.codecs, serde.serializer, conn, messageType, payload, clock);
        var collect := [Collect(CollectRequest(conn, clock.consumedAt, ZeroTime, payload))];
        assert CollectedEvents(collect[1..]) == 0;
      case Err(err) =>
        RejectedAccounting(h.codecs, serde.serializer, conn, messageType, err, clock);
  }

  /** Per-connection accounting: every frame read is counted exactly once in
      batches_read_total; every data frame read gets exactly one response; the
      collector sees exactly the frames that decoded, in order; and
      events_rx_total grows by the number of events handed to the collector. */
  lemma {:induction false} SessionAccounting(h: Handler, conn: Identifier, frames: seq<Frame>, clocks: seq<Clock>)
    requires |clocks| == |frames| && KnownTypes(h, frames)
    ensures Increments(Session(h, conn, frames, clocks), BatchesReadTotal) == FramesRead(frames)
    ensures |Filter(Session(h, conn, frames, clocks), IsWrite)| == MessagesRead(frames)
    ensures Filter(Session(h, conn, frames, clocks), IsCollect) == ExpectedCollects(h, conn, frames, clocks)
    ensures Increments(Session(h, conn, frames, clocks), EventsRxTotal)
         == CollectedEvents(ExpectedCollects(h, conn, frames, clocks))
    decreases |frames|
  {
    if frames != [] {
      var step := Step(h, conn, frames[0], clocks[0]);
      var rest := if frames[0].ReadFailure? then [] else Session(h, conn, frames[1..], clocks[1..]);
      assert Session(h, conn, frames, clocks) == step + rest;
      StepAccounting(h, conn, frames[0], clocks[0]);
      IncrementsConcat(step, rest, BatchesReadTotal);
      IncrementsConcat(step, rest, EventsRxTotal);
      FilterConcat(step, rest, IsWrite);
      FilterConcat(step, rest, IsCollect);
      if frames[0].Message? {
        assert KnownTypes(h, frames[1..]);
        SessionAccounting(h, conn, frames[1..], clocks[1..]);
        CollectedEventsConcat(FrameCollect(h, conn, frames[0], clocks[0]), ExpectedCollects(h, conn, frames[1..], clocks[1..]));
      }
    }
  }

  /** Handles one data frame: decodes it with the codec of its frame type and
      answers it; a frame that does not decode is answered with a bad request
      and handling moves on to the next frame. */
  method HandleMessage(h: Handler, conn: Identifier, messageType: int, message: seq<byte>, clock: Clock)
    returns (acts: seq<Action>)
    requires messageType in h.serdeMap
    ensures acts == StepOf(h, conn)(Message(messageType, message), clock)
  {
    var timeConsumed := clock.consumedAt;
    var serde := h.serdeMap[messageType];
    var decoded := Deserialize(h.codecs, serde.deserializer, message);
    if decoded.Err? {
      acts := [Emit(Increment(BatchesReadTotal, "status=failed,reason=serde,conn_group=" + conn.group))];
      acts := acts + [WriteBadRequestResponse(h.codecs, serde.serializer, messageType, decoded.error, clock.respondedAt)];
      return;
    }
    var payload := decoded.value;
    acts := [Emit(Increment(BatchesReadTotal, "status=success,conn_group=" + conn.group))];
    var counters := SendEventCounters(payload.events, conn.group);
    acts := acts + counters;
    acts := acts + [Collect(CollectRequest(conn, timeConsumed, ZeroTime, payload))];
    acts := acts + [WriteSuccessResponse(h.codecs, serde.serializer, messageType, payload.reqGuid, clock.respondedAt)];
  }

  /** One pass of the read loop: a read error is counted, classified, and
      stops the loop; a data frame is handled and the loop goes on. */
  method HandleFrame(h: Handler, conn: Identifier, frame: Frame, clock: Clock) returns (acts: seq<Action>, stop: bool)
    requires frame.Message? ==> frame.messageType in h.serdeMap
    ensures acts == StepOf(h, conn)(frame, clock)
    ensures stop <==> frame.ReadFailure?
  {
    if frame.ReadFailure? {
      var metric := ReadFailureMetric(frame.err, conn.group);
      return [Emit(metric)], true;
    }
    acts := HandleMessage(h, conn, frame.messageType, frame.message, clock);
    stop := false;
  }

  /** The read loop of one connection, over the frames it will read and the
      clock readings taken for each. Returns what it did and how many frames it read. */
  method HandlerWSEvents(h: Handler, conn: Identifier, frames: seq<Frame>, clocks: seq<Clock>)
    returns (trace: seq<Action>, read: nat)
    requires |clocks| == |frames| && StandardCodecMap(h) && DataFrameTypes(frames)
    ensures trace == Session(h, conn, frames, clocks)
    ensures read == FramesRead(frames)
  {
    StandardTypesKnown(h, frames);
    trace, read := [], 0;
    while read < |frames|
      invariant read <= |frames| && NoReadFailure(frames[..read])
      invariant trace == Session(h, conn, frames[..read], clocks[..read])
    {
      var acts, stop := HandleFrame(h, conn, frames[read], clocks[read]);
      SessionStep(h, conn, frames, clocks, read, acts);
      trace := trace + acts;
      read := read + 1;
      if stop {
        break;
      }
    }
    assert read == |frames| ==> frames[..read] == frames && clocks[..read] == clocks;
  }
}
