/** One worker of the pool: it takes batches off the pipeline queue one at a
    time, publishes each batch's events in one bulk call, and reports delivery
    counts and per-event latencies. Beside it runs the drain of the producer's
    delivery reports. Times are Unix milliseconds. */
module Worker {
  import opened Common

  const KafkaMessagesDeliveredTotal: string := "kafka_messages_delivered_total"
  const BatchIdleInChannel: string := "batch_idle_in_channel_milliseconds"
  const EventProcessingDuration: string := "event_processing_duration_milliseconds"
  const WorkerProcessingDuration: string := "worker_processing_duration_milliseconds"
  const ServerProcessingLatency: string := "server_processing_latency_milliseconds"

  /** The error a bulk publish returns: one entry per event, None where the
      event was accepted. */
  datatype BulkError = BulkError(errors: seq<Option<string>>)

  /** The clock readings one iteration takes: when the batch is dequeued, when
      reading it is done, when the event latency is taken, and when the
      processing latencies are taken. */
  datatype BatchClock = BatchClock(dequeuedAt: int, batchReadTime: int, sinceAt: int, now: int)

  /** A delivery report from the producer, reduced to its partition error. */
  datatype DeliveryReport = DeliveryReport(topicPartitionError: Option<string>)

  /** Signed 64-bit division as Go does it. */
  function TruncDiv(a: int, b: int): int
    requires b > 0
  {
    if a >= 0 then a / b else -((-a) / b)
  }

  /** The quotient is truncated toward zero: the remainder has the sign of the
      dividend and is smaller than the divisor. */
  lemma TruncDivBounds(a: int, b: int)
    requires b > 0
    ensures a >= 0 ==> 0 <= a - TruncDiv(a, b) * b < b
    ensures a < 0 ==> -b < a - TruncDiv(a, b) * b <= 0
  {
  }

  /** Truncation toward zero is symmetric around zero, unlike Euclidean division. */
  lemma TruncDivNegate(a: int, b: int)
    requires b > 0
    ensures TruncDiv(-a, b) == -TruncDiv(a, b)
  {
  }

  /** The number of entries of a bulk error that carry an error. */
  function NonNil(errors: seq<Option<string>>): (n: nat)
    ensures n <= |errors|
    decreases |errors|
  {
    if errors == [] then 0
    else NonNil(errors[..|errors| - 1]) + (if errors[|errors| - 1].Some? then 1 else 0)
  }

  /** No entry carries an error exactly when the count is zero; every entry
      carries one exactly when the count is the length. */
  lemma {:induction false} NonNilExtremes(errors: seq<Option<string>>)
    ensures NonNil(errors) == 0 <==> forall i | 0 <= i < |errors| :: errors[i].None?
    ensures NonNil(errors) == |errors| <==> forall i | 0 <= i < |errors| :: errors[i].Some?
    decreases |errors|
  {
    if errors != [] {
      var init := errors[..|errors| - 1];
      NonNilExtremes(init);
      assert forall i | 0 <= i < |init| :: init[i] == errors[i];
    }
  }

  /** The failures of one bulk publish: none when it returned no error,
      otherwise the entries of the bulk error that carry one. */
  method CountBulkErrors(err: Option<BulkError>) returns (totalErr: nat)
    ensures err.None? ==> totalErr == 0
    ensures err.Some? ==> totalErr == NonNil(err.value.errors)
  {
    totalErr := 0;
    if err.Some? {
      var errors := err.value.errors;
      for i := 0 to |errors|
        invariant totalErr == NonNil(errors[..i])
      {
        assert errors[..i + 1][..i] == errors[..i];
        if errors[i].Some? {
          totalErr := totalErr + 1;
        }
      }
      assert errors[..|errors|] == errors;
    }
  }

  /** The failure count a publish result stands for. */
  function Failures(err: Option<BulkError>): nat
  {
    if err.None? then 0 else NonNil(err.value.errors)
  }

  function WorkerTags(workerName: string): string
  {
    "worker=" + workerName
  }

  function GroupTags(group: string): string
  {
    "conn_group=" + group
  }

  const FailureTagPrefix: string := "success=false,"
  const SuccessTagPrefix: string := "success=true,"

  /** The per-event latency timings of one batch: none for an empty batch;
      otherwise the time since the client sent it, the time the worker spent,
      and the time since the handler read it, each divided by the batch length. */
  function Latencies(workerName: string, batch: CollectRequest, clock: BatchClock): (acts: seq<Action>)
    ensures |acts| == (if |batch.sendEventRequest.events| > 0 then 3 else 0)
    ensures forall i | 0 <= i < |acts| :: IsTiming(acts[i])
  {
    var lenBatch := |batch.sendEventRequest.events|;
    var group := batch.connectionIdentifier.group;
    if lenBatch > 0 then
      [Emit(Timing(EventProcessingDuration,
                   TruncDiv(clock.sinceAt - batch.sendEventRequest.sentTimeSeconds * 1000, lenBatch), GroupTags(group))),
       Emit(Timing(WorkerProcessingDuration, TruncDiv(clock.now - clock.batchReadTime, lenBatch), WorkerTags(workerName))),
       Emit(Timing(ServerProcessingLatency, TruncDiv(clock.now - batch.timeConsumed, lenBatch), GroupTags(group)))]
    else []
  }

  /** What one iteration of the worker loop does with one dequeued batch. */
  function BatchActions(workerName: string, batch: CollectRequest, clock: BatchClock, produced: Option<BulkError>)
    : seq<Action>
  {
    var events := batch.sendEventRequest.events;
    var group := batch.connectionIdentifier.group;
    var totalErr := Failures(produced);
    [Emit(Timing(BatchIdleInChannel, clock.dequeuedAt - batch.timePushed, WorkerTags(workerName))),
     Publish(events)]
    + Latencies(workerName, batch, clock)
    + DeliveryCounts(group, totalErr, |events| - totalErr)
  }

  /** The two delivery counters of one batch: failures, then successes. */
  function DeliveryCounts(group: string, failed: int, delivered: int): seq<Action>
  {
    [Emit(Count(KafkaMessagesDeliveredTotal, failed, FailureTagPrefix + GroupTags(group))),
     Emit(Count(KafkaMessagesDeliveredTotal, delivered, SuccessTagPrefix + GroupTags(group)))]
  }

  /** One iteration of the worker loop. `produced` is what the bulk publish of
      the batch's events returns. */
  method ProcessBatch(workerName: string, batch: CollectRequest, clock: BatchClock, produced: Option<BulkError>)
    returns (acts: seq<Action>)
    ensures acts == BatchActions(workerName, batch, clock, produced)
  {
    acts := [Emit(Timing(BatchIdleInChannel, clock.dequeuedAt - batch.timePushed, WorkerTags(workerName)))];
    var batchReadTime := clock.batchReadTime;
    var events := batch.sendEventRequest.events;
    acts := acts + [Publish(events)];
    var totalErr := CountBulkErrors(produced);
    var lenBatch := |events|;
    var group := batch.connectionIdentifier.group;
    if lenBatch > 0 {
      var eventTimingMs := TruncDiv(clock.sinceAt - batch.sendEventRequest.sentTimeSeconds * 1000, lenBatch);
      acts := acts + [Emit(Timing(EventProcessingDuration, eventTimingMs, GroupTags(group)))];
      var now := clock.now;
      acts := acts + [Emit(Timing(WorkerProcessingDuration, TruncDiv(now - batchReadTime, lenBatch), WorkerTags(workerName)))];
      acts := acts + [Emit(Timing(ServerProcessingLatency, TruncDiv(now - batch.timeConsumed, lenBatch), GroupTags(group)))];
    }
    acts := acts + [Emit(Count(KafkaMessagesDeliveredTotal, totalErr, FailureTagPrefix + GroupTags(group)))];
    acts := acts + [Emit(Count(KafkaMessagesDeliveredTotal, lenBatch - totalErr, SuccessTagPrefix + GroupTags(group)))];
  }

  /** The delivery counts of one batch: `totalErr` failures and the rest of the
      batch as successes, both tagged with the batch's connection group, so
      together they add up to the batch length. */
  lemma BatchDeliveryCounts(workerName: string, batch: CollectRequest, clock: BatchClock, produced: Option<BulkError>)
    ensures var acts := BatchActions(workerName, batch, clock, produced);
            var group := batch.connectionIdentifier.group;
            && acts[|acts| - 2] == Emit(Count(KafkaMessagesDeliveredTotal, Failures(produced), "success=false,conn_group=" + group))
            && acts[|acts| - 1] == Emit(Count(KafkaMessagesDeliveredTotal, |batch.sendEventRequest.events| - Failures(produced),
                                              "success=true,conn_group=" + group))
            && CountTotal(acts, KafkaMessagesDeliveredTotal, FailureTagPrefix) == Failures(produced)
            && CountTotal(acts, KafkaMessagesDeliveredTotal, SuccessTagPrefix)
               == |batch.sendEventRequest.events| - Failures(produced)
  {
    var group := batch.connectionIdentifier.group;
    var head := [Emit(Timing(BatchIdleInChannel, clock.dequeuedAt - batch.timePushed, WorkerTags(workerName))),
                 Publish(batch.sendEventRequest.events)];
    var counts := DeliveryCounts(group, Failures(produced), |batch.sendEventRequest.events| - Failures(produced));
    DeliveryTotals(group, Failures(produced), |batch.sendEventRequest.events| - Failures(produced));
    DeliveryTags(group, Failures(produced), |batch.sendEventRequest.events| - Failures(produced));
    CountsAtEnd(head + Latencies(workerName, batch, clock), counts);
  }

  /** Actions with no counter in them, followed by the delivery counts. */
  lemma CountsAtEnd(prefix: seq<Action>, counts: seq<Action>)
    requires forall i | 0 <= i < |prefix| :: IsTiming(prefix[i]) || prefix[i].Publish?
    ensures forall tagPrefix :: CountTotal(prefix + counts, KafkaMessagesDeliveredTotal, tagPrefix)
                             == CountTotal(counts, KafkaMessagesDeliveredTotal, tagPrefix)
  {
    NoCounts(prefix);
    forall tagPrefix {
      CountTotalConcat(prefix, counts, KafkaMessagesDeliveredTotal, tagPrefix);
    }
  }

  /** Timings and publishes add nothing to any counter. */
  lemma {:induction false} NoCounts(acts: seq<Action>)
    requires forall i | 0 <= i < |acts| :: IsTiming(acts[i]) || acts[i].Publish?
    ensures forall tagPrefix :: CountTotal(acts, KafkaMessagesDeliveredTotal, tagPrefix) == 0
  {
    if acts != [] {
      NoCounts(acts[1..]);
    }
  }

  /** The two delivery counts, read back by their tag prefixes. */
  lemma DeliveryTotals(group: string, failed: int, delivered: int)
    ensures var counts := DeliveryCounts(group, failed, delivered);
            && CountTotal(counts, KafkaMessagesDeliveredTotal, FailureTagPrefix) == failed
            && CountTotal(counts, KafkaMessagesDeliveredTotal, SuccessTagPrefix) == delivered
  {
    var counts := DeliveryCounts(group, failed, delivered);
    assert FailureTagPrefix[8] != SuccessTagPrefix[8];
    PrefixMismatch(FailureTagPrefix, SuccessTagPrefix, GroupTags(group), 8);
    PrefixMismatch(SuccessTagPrefix, FailureTagPrefix, GroupTags(group), 8);
    var rest := counts[1..];
    assert rest[1..] == [];
    assert CountTotal(rest, KafkaMessagesDeliveredTotal, FailureTagPrefix) == 0;
    assert CountTotal(rest, KafkaMessagesDeliveredTotal, SuccessTagPrefix) == delivered;
  }

  /** The two delivery counts carry the batch's group after their success flag. */
  lemma DeliveryTags(group: string, failed: int, delivered: int)
    ensures var counts := DeliveryCounts(group, failed, delivered);
            && counts[0] == Emit(Count(KafkaMessagesDeliveredTotal, failed, "success=false,conn_group=" + group))
            && counts[1] == Emit(Count(KafkaMessagesDeliveredTotal, delivered, "success=true,conn_group=" + group))
  {
    assert FailureTagPrefix + "conn_group=" == "success=false,conn_group=";
    assert SuccessTagPrefix + "conn_group=" == "success=true,conn_group=";
    assert FailureTagPrefix + GroupTags(group) == (FailureTagPrefix + "conn_group=") + group;
    assert SuccessTagPrefix + GroupTags(group) == (SuccessTagPrefix + "conn_group=") + group;
  }

  /** A string that starts with `p` has `p` as a prefix, and not `q` when the
      two differ at some position both have. */
  lemma PrefixMismatch(p: string, q: string, rest: string, i: nat)
    requires i < |p| && i < |q| && p[i] != q[i]
    ensures HasPrefix(p + rest, p) && !HasPrefix(p + rest, q)
  {
  }

  /** The success count is never negative when the bulk error has at most one
      entry per event. */
  lemma SuccessesNonNegative(produced: Option<BulkError>, lenBatch: nat)
    requires produced.Some? ==> |produced.value.errors| <= lenBatch
    ensures 0 <= lenBatch - Failures(produced) <= lenBatch
  {
  }

  /** A bulk publish of five events that fails for two of them is reported
      as two failures and three successes. */
  lemma ScenarioTwoOfFive(workerName: string, batch: CollectRequest, clock: BatchClock)
    requires |batch.sendEventRequest.events| == 5
    ensures var produced := Some(BulkError([None, Some("timed out"), None, Some("timed out"), None]));
            var acts := BatchActions(workerName, batch, clock, produced);
            && CountTotal(acts, KafkaMessagesDeliveredTotal, FailureTagPrefix) == 2
            && CountTotal(acts, KafkaMessagesDeliveredTotal, SuccessTagPrefix) == 3
  {
    var errors := [None, Some("timed out"), None, Some("timed out"), None];
    assert NonNil(errors[..1]) == 0;
    assert NonNil(errors[..2]) == 1 by { assert errors[..2][..1] == errors[..1]; }
    assert NonNil(errors[..3]) == 1 by { assert errors[..3][..2] == errors[..2]; }
    assert NonNil(errors[..4]) == 2 by { assert errors[..4][..3] == errors[..3]; }
    assert NonNil(errors) == 2;
    BatchDeliveryCounts(workerName, batch, clock, Some(BulkError(errors)));
  }

  /** One batch is published exactly once, right after its idle time is
      recorded; the idle time is the wait between Collect's stamp and the
      dequeue. Latencies are recorded only for a non-empty batch, so no
      division by zero happens, and each is its elapsed time shared out
      evenly over the events, rounded toward zero. */
  lemma BatchTimings(workerName: string, batch: CollectRequest, clock: BatchClock, produced: Option<BulkError>)
    ensures var acts := BatchActions(workerName, batch, clock, produced);
            && acts[0] == Emit(Timing(BatchIdleInChannel, clock.dequeuedAt - batch.timePushed, "worker=" + workerName))
            && Filter(acts, IsPublish) == [Publish(batch.sendEventRequest.events)]
            && acts[1] == Publish(batch.sendEventRequest.events)
            && |Filter(acts, IsTiming)| == (if |batch.sendEventRequest.events| > 0 then 4 else 1)
  {
    var group := batch.connectionIdentifier.group;
    BatchShape(Emit(Timing(BatchIdleInChannel, clock.dequeuedAt - batch.timePushed, WorkerTags(workerName))),
               Publish(batch.sendEventRequest.events),
               Latencies(workerName, batch, clock),
               DeliveryCounts(group, Failures(produced), |batch.sendEventRequest.events| - Failures(produced)));
  }

  /** The filters of a batch's actions, for any actions of the same kinds. */
  lemma BatchShape(idle: Action, publish: Action, lat: seq<Action>, counts: seq<Action>)
    requires IsTiming(idle) && publish.Publish?
    requires forall i | 0 <= i < |lat| :: IsTiming(lat[i])
    requires |counts| == 2 && counts[0].Emit? && counts[0].metric.Count? && counts[1].Emit? && counts[1].metric.Count?
    ensures Filter([idle, publish] + lat + counts, IsPublish) == [publish]
    ensures |Filter([idle, publish] + lat + counts, IsTiming)| == 1 + |lat|
  {
    var head := [idle, publish];
    FilterConcat(head, lat, IsPublish);
    FilterConcat(head + lat, counts, IsPublish);
    FilterConcat(head, lat, IsTiming);
    FilterConcat(head + lat, counts, IsTiming);
    OnlyTimings(lat);
    assert head[1..][1..] == [] && counts[1..][1..] == [];
  }

  lemma {:induction false} OnlyTimings(acts: seq<Action>)
    requires forall i | 0 <= i < |acts| :: IsTiming(acts[i])
    ensures Filter(acts, IsTiming) == acts && Filter(acts, IsPublish) == []
  {
    if acts != [] {
      OnlyTimings(acts[1..]);
    }
  }

  /** For a non-empty batch, each latency `m` of elapsed time `d` over `n`
      events is truncated toward zero: m * n <= d < (m + 1) * n when d is not
      negative, and (m - 1) * n < d <= m * n when it is (a client clock ahead
      of the server's makes the event latency negative). */
  lemma LatencyAverages(workerName: string, batch: CollectRequest, clock: BatchClock)
    requires |batch.sendEventRequest.events| > 0
    ensures var acts := Latencies(workerName, batch, clock);
            var n := |batch.sendEventRequest.events|;
            var sent := batch.sendEventRequest.sentTimeSeconds * 1000;
            && acts[0].metric.name == EventProcessingDuration
            && (clock.sinceAt - sent >= 0 ==> acts[0].metric.millis * n <= clock.sinceAt - sent < acts[0].metric.millis * n + n)
            && (clock.sinceAt - sent < 0 ==> acts[0].metric.millis * n - n < clock.sinceAt - sent <= acts[0].metric.millis * n)
            && acts[1].metric.name == WorkerProcessingDuration
            && (clock.now - clock.batchReadTime >= 0 ==>
                  acts[1].metric.millis * n <= clock.now - clock.batchReadTime < acts[1].metric.millis * n + n)
            && (clock.now - clock.batchReadTime < 0 ==>
                  acts[1].metric.millis * n - n < clock.now - clock.batchReadTime <= acts[1].metric.millis * n)
            && acts[2].metric.name == ServerProcessingLatency
            && (clock.now - batch.timeConsumed >= 0 ==>
                  acts[2].metric.millis * n <= clock.now - batch.timeConsumed < acts[2].metric.millis * n + n)
            && (clock.now - batch.timeConsumed < 0 ==>
                  acts[2].metric.millis * n - n < clock.now - batch.timeConsumed <= acts[2].metric.millis * n)
  {
    var n := |batch.sendEventRequest.events|;
    TruncDivBounds(clock.sinceAt - batch.sendEventRequest.sentTimeSeconds * 1000, n);
    TruncDivBounds(clock.now - clock.batchReadTime, n);
    TruncDivBounds(clock.now - batch.timeConsumed, n);
  }

  /** Events in a run of batches. */
  function TotalEvents(batches: seq<CollectRequest>): nat
    decreases |batches|
  {
    if batches == [] then 0
    else TotalEvents(batches[..|batches| - 1]) + |batches[|batches| - 1].sendEventRequest.events|
  }

  /** Failures reported over a run of publish results. */
  function TotalFailures(produced: seq<Option<BulkError>>): nat
    decreases |produced|
  {
    if produced == [] then 0
    else TotalFailures(produced[..|produced| - 1]) + Failures(produced[|produced| - 1])
  }

  /** The publishes a run should make: each batch's events, once, in queue order. */
  function Published(batches: seq<CollectRequest>): (ps: seq<Action>)
    ensures |ps| == |batches|
    decreases |batches|
  {
    if batches == [] then []
    else Published(batches[..|batches| - 1]) + [Publish(batches[|batches| - 1].sendEventRequest.events)]
  }

  /** What the worker loop does with the batches it dequeues, in order. */
  function WorkerRun(workerName: string, batches: seq<CollectRequest>, clocks: seq<BatchClock>,
                     produced: seq<Option<BulkError>>): seq<Action>
    requires |clocks| == |batches| && |produced| == |batches|
    decreases |batches|
  {
    if batches == [] then []
    else
      var n := |batches| - 1;
      WorkerRun(workerName, batches[..n], clocks[..n], produced[..n])
      + BatchActions(workerName, batches[n], clocks[n], produced[n])
  }

  /** Over a whole run, every batch is published exactly once, in the order
      it was dequeued, and nothing else is published. */
  lemma {:induction false} WorkerRunPublishes(workerName: string, batches: seq<CollectRequest>, clocks: seq<BatchClock>,
                                              produced: seq<Option<BulkError>>)
    requires |clocks| == |batches| && |produced| == |batches|
    ensures Filter(WorkerRun(workerName, batches, clocks, produced), IsPublish) == Published(batches)
    decreases |batches|
  {
    if batches != [] {
      var n := |batches| - 1;
      WorkerRunPublishes(workerName, batches[..n], clocks[..n], produced[..n]);
      BatchTimings(workerName, batches[n], clocks[n], produced[n]);
      FilterConcat(WorkerRun(workerName, batches[..n], clocks[..n], produced[..n]),
                   BatchActions(workerName, batches[n], clocks[n], produced[n]), IsPublish);
    }
  }

  /** Over a whole run, the failures reported add up to the failures the
      publishes returned, and successes plus failures add up to the events
      dequeued. */
  lemma {:induction false} WorkerRunDeliveries(workerName: string, batches: seq<CollectRequest>, clocks: seq<BatchClock>,
                                               produced: seq<Option<BulkError>>)
    requires |clocks| == |batches| && |produced| == |batches|
    ensures var trace := WorkerRun(workerName, batches, clocks, produced);
            && CountTotal(trace, KafkaMessagesDeliveredTotal, FailureTagPrefix) == TotalFailures(produced)
            && CountTotal(trace, KafkaMessagesDeliveredTotal, SuccessTagPrefix)
               + CountTotal(trace, KafkaMessagesDeliveredTotal, FailureTagPrefix) == TotalEvents(batches)
    decreases |batches|
  {
    if batches != [] {
      var n := |batches| - 1;
      var earlier := WorkerRun(workerName, batches[..n], clocks[..n], produced[..n]);
      var acts := BatchActions(workerName, batches[n], clocks[n], produced[n]);
      WorkerRunDeliveries(workerName, batches[..n], clocks[..n], produced[..n]);
      BatchDeliveryCounts(workerName, batches[n], clocks[n], produced[n]);
      CountTotalConcat(earlier, acts, KafkaMessagesDeliveredTotal, FailureTagPrefix);
      CountTotalConcat(earlier, acts, KafkaMessagesDeliveredTotal, SuccessTagPrefix);
    }
  }

  /** The worker loop over the batches it dequeues, with the clock readings and
      publish results of each iteration. */
  method RunWorker(workerName: string, batches: seq<CollectRequest>, clocks: seq<BatchClock>,
                   produced: seq<Option<BulkError>>)
    returns (trace: seq<Action>)
    requires |clocks| == |batches| && |produced| == |batches|
    ensures trace == WorkerRun(workerName, batches, clocks, produced)
    ensures CountTotal(trace, KafkaMessagesDeliveredTotal, SuccessTagPrefix)
          + CountTotal(trace, KafkaMessagesDeliveredTotal, FailureTagPrefix) == TotalEvents(batches)
  {
    trace := [];
    for k := 0 to |batches|
      invariant trace == WorkerRun(workerName, batches[..k], clocks[..k], produced[..k])
    {
      var acts := ProcessBatch(workerName, batches[k], clocks[k], produced[k]);
      assert batches[..k + 1][..k] == batches[..k] && clocks[..k + 1][..k] == clocks[..k]
          && produced[..k + 1][..k] == produced[..k];
      trace := trace + acts;
    }
    assert batches[..|batches|] == batches && clocks[..|batches|] == clocks && produced[..|batches|] == produced;
    WorkerRunDeliveries(workerName, batches, clocks, produced);
  }

  /** The increment the drain makes for a failed delivery; the group is unknown there. */
  const DeliveryFailure: Action := Emit(Increment(KafkaMessagesDeliveredTotal, "success=false,conn_group="))

  /** The number of reports that carry an error. */
  function FailedReports(reports: seq<DeliveryReport>): (n: nat)
    ensures n <= |reports|
    decreases |reports|
  {
    if reports == [] then 0
    else FailedReports(reports[..|reports| - 1]) + (if reports[|reports| - 1].topicPartitionError.Some? then 1 else 0)
  }

  /** No failure is reported exactly when no report carries an error. */
  lemma {:induction false} NoFailedReports(reports: seq<DeliveryReport>)
    ensures FailedReports(reports) == 0 <==> forall i | 0 <= i < |reports| :: reports[i].topicPartitionError.None?
    decreases |reports|
  {
    if reports != [] {
      var init := reports[..|reports| - 1];
      NoFailedReports(init);
      assert forall i | 0 <= i < |init| :: init[i] == reports[i];
    }
  }

  /** The drain of the delivery reports: one failure increment, with an empty
      group tag, per report that carries an error, and nothing for the others. */
  method DrainDeliveries(reports: seq<DeliveryReport>) returns (trace: seq<Action>)
    ensures |trace| == FailedReports(reports)
    ensures forall i | 0 <= i < |trace| :: trace[i] == DeliveryFailure
    ensures Increments(trace, KafkaMessagesDeliveredTotal) == FailedReports(reports)
  {
    trace := [];
    for k := 0 to |reports|
      invariant |trace| == FailedReports(reports[..k])
      invariant forall i | 0 <= i < |trace| :: trace[i] == DeliveryFailure
    {
      assert reports[..k + 1][..k] == reports[..k];
      if reports[k].topicPartitionError.Some? {
        trace := trace + [DeliveryFailure];
      }
    }
    assert reports[..|reports|] == reports;
    AllDeliveryFailures(trace);
  }

  lemma {:induction false} AllDeliveryFailures(trace: seq<Action>)
    requires forall i | 0 <= i < |trace| :: trace[i] == DeliveryFailure
    ensures Increments(trace, KafkaMessagesDeliveredTotal) == |trace|
  {
    if trace != [] {
      AllDeliveryFailures(trace[1..]);
    }
  }
}
