/**
 * `consumer::tail` and `consumer::tail_limit`: planning and applying the
 * assignment, handing out the iterator over it, and the plain bounded read.
 */
module Consumer {
  import opened Wrappers
  import opened Client
  import opened Planner
  import opened Reader

  /** The errors `tail` passes on with `?`. */
  datatype TailError = MetadataError | OffsetsForTimesError | AssignError

  /**
   * The broker's answers for one call of `tail`: the partition ids of the topic
   * (None when fetch_metadata fails), fetch_watermarks per partition id, the
   * offsets_for_times lookup (None when it fails) and whether assign succeeds.
   */
  datatype Broker = Broker(
    partitions: Option<seq<int>>,
    watermarks: map<int, Watermark>,
    offsetsForTimes: seq<TopicPartition> -> Option<seq<TopicPartition>>,
    assignAccepted: bool)

  /**
   * `tail`: snapshot the watermarks, plan one entry per partition, let the broker
   * resolve a timestamp request, assign, and return the iterator over the
   * snapshot. `order` is the iteration order of the watermark table.
   */
  method Tail(consumer: BaseConsumer, topic: string, limit: Option<int>, sinceMs: Option<int>,
              broker: Broker, order: seq<int>)
    returns (r: Result<ConsumeAllIterator, TailError>)
    requires broker.partitions.Some? ==>
      && Fetched(broker.partitions.value, broker.watermarks)
      && Ids(order) == Ids(broker.partitions.value) && Distinct(order)
    modifies consumer
    ensures consumer.script == old(consumer.script) && consumer.positions == old(consumer.positions)
    ensures consumer.timeouts == old(consumer.timeouts)
    ensures r == Failure(MetadataError) <==> broker.partitions.None?
    ensures r == Failure(AssignError) ==> !broker.assignAccepted
    ensures r == Failure(OffsetsForTimesError) ==>
      && sinceMs.Some? && broker.partitions.Some?
      && exists p :: IsPlan(p, topic, WatermarkTable(broker.partitions.value, broker.watermarks), limit, sinceMs)
                     && broker.offsetsForTimes(p).None?
    ensures r.Failure? ==> consumer.assignment == old(consumer.assignment)
    ensures r.Success? ==>
      && broker.partitions.Some? && broker.assignAccepted
      && fresh(r.value)
      && r.value.consumer == consumer && r.value.topic == topic
      && r.value.offsets == WatermarkTable(broker.partitions.value, broker.watermarks)
      && (sinceMs.None? ==> IsPlan(consumer.assignment, topic, r.value.offsets, limit, sinceMs))
      && (sinceMs.Some? ==> exists p :: IsPlan(p, topic, r.value.offsets, limit, sinceMs)
                                        && broker.offsetsForTimes(p) == Some(consumer.assignment))
    ensures broker.partitions.Some? && broker.assignAccepted && sinceMs.None? ==> r.Success?
  {
    if broker.partitions.None? {
      return Failure(MetadataError);
    }
    var ids := broker.partitions.value;
    var offsets := WatermarkTable(ids, broker.watermarks);
    var assignment := PlanAssignment(topic, offsets, order, limit, sinceMs);
    ghost var planned := assignment;
    if sinceMs.Some? {
      var resolved := broker.offsetsForTimes(assignment);
      if resolved.None? {
        return Failure(OffsetsForTimesError);
      }
      assignment := resolved.value;
    }
    if !broker.assignAccepted {
      return Failure(AssignError);
    }
    consumer.Assign(assignment);
    var it := new ConsumeAllIterator(consumer, topic, offsets);
    r := Success(it);
  }

  /**
   * `tail_limit`: at most `limit` of the messages the consumer's iterator yields,
   * in the order it yields them.
   */
  function TailLimit(messages: seq<Message>, limit: nat): (r: seq<Message>)
    ensures |r| <= limit && |r| <= |messages|
    ensures r == messages[..|r|]
    ensures |r| == limit || r == messages
  {
    if limit == 0 || messages == [] then []
    else
      var rest := TailLimit(messages[1..], limit - 1);
      assert messages[..|rest| + 1] == [messages[0]] + messages[1..][..|rest|];
      [messages[0]] + rest
  }
}
