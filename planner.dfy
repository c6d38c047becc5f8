/**
 * The offset planner of `consumer::tail`: the watermark table built from the
 * topic metadata, the start offset chosen for each partition, and the loop
 * that turns the table into the list handed to assign().
 */
module Planner {
  import opened Wrappers
  import opened Client

  /** The partition ids a metadata list names. */
  function Ids(ids: seq<int>): set<int>
  {
    set i | 0 <= i < |ids| :: ids[i]
  }

  ghost predicate Distinct(ids: seq<int>)
  {
    forall i, j :: 0 <= i < j < |ids| ==> ids[i] != ids[j]
  }

  /** Every id of the metadata list has a fetch_watermarks answer. */
  ghost predicate Fetched(ids: seq<int>, fetched: map<int, Watermark>)
  {
    forall i :: 0 <= i < |ids| ==> ids[i] in fetched
  }

  /**
   * The watermark table: each partition id of the metadata list mapped to the
   * watermarks fetched for it, collected one pair after another into a map.
   */
  function WatermarkTable(ids: seq<int>, fetched: map<int, Watermark>): (table: map<int, Watermark>)
    requires Fetched(ids, fetched)
    ensures table.Keys == Ids(ids)
    ensures forall p :: p in table ==> table[p] == fetched[p]
  {
    if ids == [] then map[]
    else
      var n := |ids| - 1;
      assert Ids(ids) == Ids(ids[..n]) + {ids[n]} by {
        forall p | p in Ids(ids) ensures p in Ids(ids[..n]) + {ids[n]} {
          var i :| 0 <= i < |ids| && ids[i] == p;
          if i < n { assert ids[..n][i] == p; }
        }
      }
      WatermarkTable(ids[..n], fetched)[ids[n] := fetched[ids[n]]]
  }

  /** With pairwise distinct ids the table has exactly one entry per listed partition. */
  lemma TableSize(ids: seq<int>, fetched: map<int, Watermark>)
    requires Fetched(ids, fetched) && Distinct(ids)
    ensures |WatermarkTable(ids, fetched)| == |ids|
  {
    DistinctIdsCount(ids);
    assert |WatermarkTable(ids, fetched)| == |WatermarkTable(ids, fetched).Keys|;
  }

  function Min(a: int, b: int): int
  {
    if a <= b then a else b
  }

  /** The offset a request designates, reading OffsetTail(n) as `high - n`. */
  function StartOf(o: Offset, w: Watermark): int
  {
    match o
    case Offset(x) => x
    case OffsetTail(n) => w.high - n
  }

  /**
   * The offset requested for one partition. A timestamp wins over the limit;
   * otherwise the tail of `limit` messages when the partition holds more than
   * that, else the low watermark.
   */
  function Target(w: Watermark, limit: Option<int>, sinceMs: Option<int>): (o: Offset)
    ensures sinceMs.Some? ==> o == Offset(sinceMs.value)
    ensures sinceMs.None? && w.low <= w.high && (limit.Some? ==> limit.value >= 0) ==>
      && w.low <= StartOf(o, w) <= w.high
      && w.high - StartOf(o, w) == (if limit.Some? then Min(w.high - w.low, limit.value) else w.high - w.low)
  {
    match sinceMs
    case Some(ts) => Offset(ts)
    case None =>
      if limit.Some? && w.high - w.low > limit.value then OffsetTail(limit.value) else Offset(w.low)
  }

  function PartitionsOf(list: seq<TopicPartition>): set<int>
  {
    set i | 0 <= i < |list| :: list[i].partition
  }

  /**
   * `list` requests, for the partitions of `table` and no others, each exactly
   * once and on `topic`, the offset Target chooses for that partition.
   */
  ghost predicate IsPlan(list: seq<TopicPartition>, topic: string, table: map<int, Watermark>,
                         limit: Option<int>, sinceMs: Option<int>)
  {
    && PartitionsOf(list) == table.Keys
    && |list| == |table|
    && (forall i, j :: 0 <= i < j < |list| ==> list[i].partition != list[j].partition)
    && (forall i :: 0 <= i < |list| ==>
          && list[i].topic == topic
          && list[i].partition in table
          && list[i].offset == Target(table[list[i].partition], limit, sinceMs))
  }

  /** The first `k` entries of `list` are those of the first `k` partitions of `order`. */
  ghost predicate PlannedUpTo(list: seq<TopicPartition>, topic: string, table: map<int, Watermark>,
                              order: seq<int>, k: nat, limit: Option<int>, sinceMs: Option<int>)
  {
    && k <= |order| && |list| == k
    && forall i :: 0 <= i < k ==>
         order[i] in table && list[i] == TopicPartition(topic, order[i], Target(table[order[i]], limit, sinceMs))
  }

  /** Pairwise distinct ids name as many partitions as there are ids. */
  lemma {:induction false} DistinctIdsCount(ids: seq<int>)
    requires Distinct(ids)
    ensures |Ids(ids)| == |ids|
  {
    if ids != [] {
      var n := |ids| - 1;
      DistinctIdsCount(ids[..n]);
      assert Ids(ids) == Ids(ids[..n]) + {ids[n]} by {
        forall p | p in Ids(ids) ensures p in Ids(ids[..n]) + {ids[n]} {
          var i :| 0 <= i < |ids| && ids[i] == p;
          if i < n { assert ids[..n][i] == p; }
        }
      }
      assert ids[n] !in Ids(ids[..n]);
    }
  }

  /** A list that follows an order naming every key once is a plan. */
  lemma PlanFromOrder(list: seq<TopicPartition>, topic: string, table: map<int, Watermark>,
                      order: seq<int>, limit: Option<int>, sinceMs: Option<int>)
    requires Ids(order) == table.Keys && Distinct(order)
    requires PlannedUpTo(list, topic, table, order, |order|, limit, sinceMs)
    ensures IsPlan(list, topic, table, limit, sinceMs)
  {
    assert PartitionsOf(list) == Ids(order) by {
      forall p | p in Ids(order) ensures p in PartitionsOf(list) {
        var i :| 0 <= i < |order| && order[i] == p;
        assert list[i].partition == p;
      }
    }
    DistinctIdsCount(order);
    assert |table| == |table.Keys|;
  }

  /**
   * The assignment loop of `tail`: every partition of the table gets one entry,
   * visited in the table's iteration order `order` (a HashMap's order is
   * unspecified, so it is a parameter: each key exactly once). On the timestamp
   * path every entry requests the timestamp itself, before the broker resolves it.
   */
  method PlanAssignment(topic: string, table: map<int, Watermark>, order: seq<int>,
                        limit: Option<int>, sinceMs: Option<int>)
    returns (list: seq<TopicPartition>)
    requires Ids(order) == table.Keys && Distinct(order)
    ensures IsPlan(list, topic, table, limit, sinceMs)
    ensures |list| == |order| && forall k :: 0 <= k < |list| ==> list[k].partition == order[k]
  {
    list := [];
    for k := 0 to |order|
      invariant PlannedUpTo(list, topic, table, order, k, limit, sinceMs)
    {
      var p := order[k];
      assert p in Ids(order);
      var w := table[p];
      var o;
      match sinceMs {
        case None =>
          o := if limit.Some? && w.high - w.low > limit.value then OffsetTail(limit.value) else Offset(w.low);
        case Some(ts) =>
          o := Offset(ts);
      }
      list := list + [TopicPartition(topic, p, o)];
    }
    PlanFromOrder(list, topic, table, order, limit, sinceMs);
  }

  /**
   * Without a timestamp, a plan over consistent watermarks starts every
   * partition inside its watermarks and spans min(high - low, limit) offsets.
   */
  lemma PlanWithinWatermarks(list: seq<TopicPartition>, topic: string, table: map<int, Watermark>, limit: Option<int>)
    requires IsPlan(list, topic, table, limit, None)
    requires forall p :: p in table ==> table[p].low <= table[p].high
    requires limit.Some? ==> limit.value >= 0
    ensures forall i :: 0 <= i < |list| ==>
      var w := table[list[i].partition];
      && w.low <= StartOf(list[i].offset, w) <= w.high
      && w.high - StartOf(list[i].offset, w) == (if limit.Some? then Min(w.high - w.low, limit.value) else w.high - w.low)
  {
  }

  /** On the timestamp path the limit plays no part. */
  lemma SinceIgnoresLimit(list: seq<TopicPartition>, topic: string, table: map<int, Watermark>,
                          limit: Option<int>, ts: int)
    requires IsPlan(list, topic, table, limit, Some(ts))
    ensures IsPlan(list, topic, table, None, Some(ts))
    ensures forall i :: 0 <= i < |list| ==> list[i].offset == Offset(ts)
  {
  }
}
