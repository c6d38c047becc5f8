/**
 * The bounded tail reader: `ConsumeAllIterator` with its termination check
 * `has_more` and its element step `next`, over the abstract consumer.
 */
module Reader {
  import opened Wrappers
  import opened Client

  /** The raw offset librdkafka reports for a partition without a position. */
  const INVALID_TOPIC_OFFSET: int := -1001
  /** Timeout of the first poll of `next`, in milliseconds. */
  const FIRST_POLL_MS: nat := 150
  /** Timeout of each further poll of `next`, in milliseconds. */
  const RETRY_POLL_MS: nat := 15

  /** `elements_for_topic`: the reported positions that belong to `topic`, in order. */
  function ElementsForTopic(ps: seq<Position>, topic: string): (r: seq<Position>)
    ensures |r| <= |ps|
  {
    if ps == [] then []
    else (if ps[0].topic == topic then [ps[0]] else []) + ElementsForTopic(ps[1..], topic)
  }

  /** The filter keeps exactly the positions of `topic`. */
  lemma {:induction false} ElementsForTopicExact(ps: seq<Position>, topic: string)
    ensures forall x :: x in ElementsForTopic(ps, topic) <==> x in ps && x.topic == topic
  {
    if ps != [] {
      ElementsForTopicExact(ps[1..], topic);
      assert forall x :: x in ps <==> x == ps[0] || x in ps[1..];
    }
  }

  /**
   * `has_more` looks a position's partition up in the snapshot, and unwraps the
   * answer, only when the position is not the invalid offset: every such
   * position of `topic` must name a partition of the snapshot.
   */
  ghost predicate KnownFor(ps: seq<Position>, topic: string, offsets: map<int, Watermark>)
  {
    forall x :: x in ps && x.topic == topic && x.offset != INVALID_TOPIC_OFFSET ==> x.partition in offsets
  }

  /** One position counts as caught up: no concrete position, or exactly the snapshot's high. */
  predicate CaughtUp(p: Position, offsets: map<int, Watermark>)
  {
    p.offset == INVALID_TOPIC_OFFSET || (p.partition in offsets && p.offset == offsets[p.partition].high)
  }

  /** The verdict of `has_more`'s loop as written: the last position alone decides. */
  predicate AtEnd(ps: seq<Position>, offsets: map<int, Watermark>)
  {
    |ps| == 0 || CaughtUp(ps[|ps| - 1], offsets)
  }

  /** The reference condition the design describes: every partition has reached its high. */
  ghost predicate AllCaughtUp(ps: seq<Position>, offsets: map<int, Watermark>)
  {
    forall i :: 0 <= i < |ps| ==>
      ps[i].offset == INVALID_TOPIC_OFFSET || (ps[i].partition in offsets && ps[i].offset >= offsets[ps[i].partition].high)
  }

  /** Every step of a script reports positions `has_more` can look up. */
  ghost predicate ScriptKnown(steps: seq<PollStep>, topic: string, offsets: map<int, Watermark>)
  {
    forall i :: 0 <= i < |steps| ==> KnownFor(steps[i].positions, topic, offsets)
  }

  /** After this step `next` polls again: it brought nothing and `has_more` said yes. */
  predicate Waiting(step: PollStep, topic: string, offsets: map<int, Watermark>)
  {
    step.message.None? && !AtEnd(ElementsForTopic(step.positions, topic), offsets)
  }

  /** What one call of `next` produces. `Stalled` stands for a script that ran out
      while the loop would poll again. */
  datatype Outcome = Item(message: Message) | End | Stalled

  datatype Drained = Drained(outcome: Outcome, polls: nat)

  /** What `next` returns when its last poll brought `m` and it stops polling. */
  function Final(m: Option<Message>): Outcome
  {
    if m.Some? then Item(m.value) else End
  }

  /** A drain result seen `n` polls earlier. */
  function Shift(d: Drained, n: nat): Drained
  {
    Drained(d.outcome, d.polls + n)
  }

  /** The outcome of `next` on a script and how many polls it takes. */
  function Drain(steps: seq<PollStep>, topic: string, offsets: map<int, Watermark>): (d: Drained)
    ensures d.polls <= |steps|
    ensures d.outcome.Stalled? ==> d.polls == |steps|
    ensures !d.outcome.Stalled? ==> d.polls > 0
  {
    if steps == [] then Drained(Stalled, 0)
    else if !Waiting(steps[0], topic, offsets) then
      Drained(Final(steps[0].message), 1)
    else
      Shift(Drain(steps[1..], topic, offsets), 1)
  }

  /** Drain on the script from position n on, unfolded once. */
  lemma DrainUnfold(steps: seq<PollStep>, n: nat, topic: string, offsets: map<int, Watermark>)
    requires n < |steps|
    ensures Drain(steps[n..], topic, offsets) ==
      if Waiting(steps[n], topic, offsets) then Shift(Drain(steps[n + 1..], topic, offsets), 1)
      else Drained(Final(steps[n].message), 1)
  {
    assert forall i :: 0 <= i < |steps[n..]| ==> steps[n..][i] == steps[n + i];
    assert steps[n..][0] == steps[n] && steps[n..][1..] == steps[n + 1..];
  }

  /** One more poll of `next`, seen from the start of its script. */
  lemma DrainAdvance(steps: seq<PollStep>, n: nat, topic: string, offsets: map<int, Watermark>)
    requires n < |steps|
    requires Drain(steps, topic, offsets) == Shift(Drain(steps[n..], topic, offsets), n)
    ensures Waiting(steps[n], topic, offsets) ==>
      Drain(steps, topic, offsets) == Shift(Drain(steps[n + 1..], topic, offsets), n + 1)
    ensures !Waiting(steps[n], topic, offsets) ==>
      Drain(steps, topic, offsets) == Drained(Final(steps[n].message), n + 1)
  {
    DrainUnfold(steps, n, topic, offsets);
  }

  /** Every poll of `next` before its last one brought nothing while `has_more` said yes. */
  lemma {:induction false} DrainWaitsBefore(steps: seq<PollStep>, topic: string, offsets: map<int, Watermark>)
    ensures var d := Drain(steps, topic, offsets);
      && (forall i :: 0 <= i < d.polls - 1 ==> Waiting(steps[i], topic, offsets))
      && (d.outcome.Stalled? ==> forall i :: 0 <= i < |steps| ==> Waiting(steps[i], topic, offsets))
  {
    if steps != [] {
      DrainUnfold(steps, 0, topic, offsets);
      assert steps[0..] == steps;
      if Waiting(steps[0], topic, offsets) {
        DrainWaitsBefore(steps[1..], topic, offsets);
        forall i | 1 <= i < |steps| ensures steps[1..][i - 1] == steps[i] {
        }
      }
    }
  }

  /**
   * The last poll of `next` decides: a message is the one it brought; the end
   * comes only from an empty poll after which `has_more` said no.
   */
  lemma {:induction false} DrainLastPoll(steps: seq<PollStep>, topic: string, offsets: map<int, Watermark>)
    ensures var d := Drain(steps, topic, offsets);
      && (d.outcome.Item? ==> d.polls > 0 && steps[d.polls - 1].message == Some(d.outcome.message))
      && (d.outcome.End? ==> d.polls > 0 && steps[d.polls - 1].message.None?
                             && AtEnd(ElementsForTopic(steps[d.polls - 1].positions, topic), offsets))
  {
    if steps != [] {
      DrainUnfold(steps, 0, topic, offsets);
      assert steps[0..] == steps;
      if Waiting(steps[0], topic, offsets) {
        DrainLastPoll(steps[1..], topic, offsets);
        var rest := Drain(steps[1..], topic, offsets);
        if rest.polls > 0 {
          assert steps[1..][rest.polls - 1] == steps[rest.polls];
        }
      }
    }
  }

  /**
   * Conversely, the first step that is not Waiting ends `next`: with its message
   * if it brought one, with the end otherwise.
   */
  lemma {:induction false} DrainStopsAtFirst(steps: seq<PollStep>, k: nat, topic: string, offsets: map<int, Watermark>)
    requires k < |steps|
    requires forall i :: 0 <= i < k ==> Waiting(steps[i], topic, offsets)
    requires !Waiting(steps[k], topic, offsets)
    ensures Drain(steps, topic, offsets) ==
      Drained(if steps[k].message.Some? then Item(steps[k].message.value) else End, k + 1)
  {
    DrainUnfold(steps, 0, topic, offsets);
    assert steps[0..] == steps;
    if k > 0 {
      forall i | 0 <= i < k - 1 ensures Waiting(steps[1..][i], topic, offsets) {
        assert steps[1..][i] == steps[i + 1];
      }
      assert steps[1..][k - 1] == steps[k];
      DrainStopsAtFirst(steps[1..], k - 1, topic, offsets);
    }
  }

  /**
   * `next` neither skips nor reorders messages: what it returns, followed by what
   * the rest of the script hands out, is what the whole script hands out.
   */
  lemma {:induction false} DrainDelivers(steps: seq<PollStep>, topic: string, offsets: map<int, Watermark>)
    ensures var d := Drain(steps, topic, offsets);
      Delivered(steps) == (if d.outcome.Item? then [d.outcome.message] else []) + Delivered(steps[d.polls..])
  {
    if steps != [] {
      DrainUnfold(steps, 0, topic, offsets);
      assert steps[0..] == steps;
      if Waiting(steps[0], topic, offsets) {
        DrainDelivers(steps[1..], topic, offsets);
        var rest := Drain(steps[1..], topic, offsets);
        assert steps[1..][rest.polls..] == steps[rest.polls + 1..];
      }
    }
  }

  /** Only the last position counts: positions before it can be anything at all. */
  lemma LastPositionDecides(ps: seq<Position>, qs: seq<Position>, offsets: map<int, Watermark>)
    requires |ps| > 0 && |qs| > 0 && ps[|ps| - 1] == qs[|qs| - 1]
    ensures AtEnd(ps, offsets) == AtEnd(qs, offsets)
  {
  }

  /**
   * The two-partition snapshot (0, 3) and (0, 1): with partition 0 at offset 1,
   * two messages short of its high, and partition 1 caught up and listed last,
   * `has_more` already answers no.
   */
  lemma LaggingPartitionIgnored(topic: string)
    ensures var offsets := map[0 := Watermark(0, 3), 1 := Watermark(0, 1)];
      var ps := [Position(topic, 0, 1), Position(topic, 1, 1)];
      && AtEnd(ps, offsets)
      && !AllCaughtUp(ps, offsets)
  {
    var offsets := map[0 := Watermark(0, 3), 1 := Watermark(0, 1)];
    var ps := [Position(topic, 0, 1), Position(topic, 1, 1)];
    assert !(ps[0].offset == INVALID_TOPIC_OFFSET || ps[0].offset >= offsets[ps[0].partition].high);
  }

  /** Positions that are all invalid or exactly at their high end the read. */
  lemma ExactlyCaughtUpEnds(ps: seq<Position>, offsets: map<int, Watermark>)
    requires forall i :: 0 <= i < |ps| ==> CaughtUp(ps[i], offsets)
    ensures AtEnd(ps, offsets) && AllCaughtUp(ps, offsets)
  {
  }

  /**
   * The comparison is equality: a last position beyond the snapshot's high, as
   * when messages written after the snapshot were read, keeps `has_more` true
   * although every partition has caught up.
   */
  lemma OvershootKeepsPolling(ps: seq<Position>, offsets: map<int, Watermark>)
    requires |ps| > 0
    requires var last := ps[|ps| - 1];
      last.offset != INVALID_TOPIC_OFFSET && last.partition in offsets && last.offset > offsets[last.partition].high
    ensures !AtEnd(ps, offsets)
  {
  }

  /**
   * A single empty partition with watermarks (5, 5), reported at offset 5: the
   * first empty poll ends `next`, whatever the broker would do afterwards.
   */
  lemma EmptyPartitionEndsAtFirstPoll(topic: string, later: seq<PollStep>)
    ensures Drain([PollStep(None, [Position(topic, 0, 5)])] + later, topic, map[0 := Watermark(5, 5)]) == Drained(End, 1)
  {
    var offsets := map[0 := Watermark(5, 5)];
    var steps := [PollStep(None, [Position(topic, 0, 5)])] + later;
    assert ElementsForTopic([Position(topic, 0, 5)], topic) == [Position(topic, 0, 5)];
    DrainStopsAtFirst(steps, 0, topic, offsets);
  }

  /** The timeouts of `n` polls of one `next`: the first one long, the rest short. */
  function PollTimeouts(n: nat): (ts: seq<nat>)
    ensures |ts| == n
    ensures n > 0 ==> ts[0] == FIRST_POLL_MS
    ensures forall i :: 0 < i < n ==> ts[i] == RETRY_POLL_MS
  {
    if n == 0 then [] else [FIRST_POLL_MS] + seq(n - 1, _ => RETRY_POLL_MS)
  }

  lemma MoreTimeouts(n: nat)
    requires n > 0
    ensures PollTimeouts(n + 1) == PollTimeouts(n) + [RETRY_POLL_MS]
  {
    assert seq(n, _ => RETRY_POLL_MS) == seq(n - 1, _ => RETRY_POLL_MS) + [RETRY_POLL_MS];
  }

  /**
   * The iterator `tail` returns. Its snapshot `offsets` is fixed when it is built
   * and only read afterwards; `next` changes the consumer it polls and nothing else.
   */
  class ConsumeAllIterator {
    const consumer: BaseConsumer
    const topic: string
    const offsets: map<int, Watermark>

    constructor (consumer: BaseConsumer, topic: string, offsets: map<int, Watermark>)
      ensures this.consumer == consumer && this.topic == topic && this.offsets == offsets
    {
      this.consumer := consumer;
      this.topic := topic;
      this.offsets := offsets;
    }

    /** `has_more`: walks the reported positions of the topic, overwriting the verdict at each one. */
    method HasMore() returns (more: bool)
      requires KnownFor(consumer.positions, topic, offsets)
      ensures more == !AtEnd(ElementsForTopic(consumer.positions, topic), offsets)
    {
      var partitions := ElementsForTopic(consumer.positions, topic);
      ElementsForTopicExact(consumer.positions, topic);
      var atEnd := true;
      for i := 0 to |partitions|
        invariant atEnd == (i == 0 || CaughtUp(partitions[i - 1], offsets))
      {
        assert partitions[i] in partitions;
        var offset := partitions[i].offset;
        atEnd := offset == INVALID_TOPIC_OFFSET || offset == offsets[partitions[i].partition].high;
      }
      more := !atEnd;
    }

    /** One poll, and the loop condition `message.is_none() && self.has_more()` after it. */
    method PollAndCheck(timeoutMs: nat) returns (message: Option<Message>, retry: bool)
      requires consumer.script != [] && KnownFor(consumer.script[0].positions, topic, offsets)
      modifies consumer
      ensures message == old(consumer.script[0].message)
      ensures consumer.positions == old(consumer.script[0].positions)
      ensures consumer.script == old(consumer.script[1..])
      ensures consumer.timeouts == old(consumer.timeouts) + [timeoutMs]
      ensures consumer.assignment == old(consumer.assignment)
      ensures retry == Waiting(old(consumer.script[0]), topic, offsets)
    {
      message := consumer.Poll(timeoutMs);
      retry := false;
      if message.None? {
        retry := HasMore();
      }
    }

    /**
     * `next`: one long poll, then short polls for as long as nothing arrives and
     * `has_more` says yes. Follows Drain on the script it starts from.
     */
    method Next() returns (r: Outcome)
      requires ScriptKnown(consumer.script, topic, offsets)
      modifies consumer
      ensures var d := Drain(old(consumer.script), topic, offsets);
        && r == d.outcome
        && consumer.script == old(consumer.script)[d.polls..]
        && consumer.timeouts == old(consumer.timeouts) + PollTimeouts(d.polls)
        && consumer.positions == (if d.polls == 0 then old(consumer.positions) else old(consumer.script)[d.polls - 1].positions)
      ensures consumer.assignment == old(consumer.assignment)
    {
      ghost var steps := consumer.script;
      if consumer.script == [] {
        return Stalled;
      }
      assert steps[0..] == steps;
      DrainAdvance(steps, 0, topic, offsets);
      var message, retry := PollAndCheck(FIRST_POLL_MS);
      ghost var n: nat := 1;
      while retry && consumer.script != []
        invariant 1 <= n <= |steps|
        invariant consumer.script == steps[n..]
        invariant consumer.positions == steps[n - 1].positions
        invariant consumer.timeouts == old(consumer.timeouts) + PollTimeouts(n)
        invariant consumer.assignment == old(consumer.assignment)
        invariant message == steps[n - 1].message
        invariant retry ==> Drain(steps, topic, offsets) == Shift(Drain(steps[n..], topic, offsets), n)
        invariant !retry ==> Drain(steps, topic, offsets) == Drained(Final(message), n)
        decreases |consumer.script|
      {
        DrainAdvance(steps, n, topic, offsets);
        MoreTimeouts(n);
        assert consumer.script[0] == steps[n] && consumer.script[1..] == steps[n + 1..];
        message, retry := PollAndCheck(RETRY_POLL_MS);
        n := n + 1;
      }
      r := if retry then Stalled else Final(message);
    }
  }
}
