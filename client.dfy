/**
 * The part of the Kafka client library (rdkafka) that the tail reader talks to,
 * reduced to the values it exchanges and to an abstract consumer whose broker
 * behaviour is given as a script of poll outcomes.
 */
module Client {
  import opened Wrappers

  newtype byte = x: int | 0 <= x < 256

  /** A requested start offset: an absolute offset, or "the last `count` messages". */
  datatype Offset = Offset(value: int) | OffsetTail(count: int)

  /** The (low, high) watermarks of one partition: oldest retained offset, one past the newest. */
  datatype Watermark = Watermark(low: int, high: int)

  /** One element of a TopicPartitionList as the reader builds it for assign(). */
  datatype TopicPartition = TopicPartition(topic: string, partition: int, offset: Offset)

  /** One element of the list position() reports, with the offset in its raw integer form. */
  datatype Position = Position(topic: string, partition: int, offset: int)

  datatype Message = Message(partition: int, offset: int, key: seq<byte>, payload: seq<byte>)

  /** What the broker does on one poll: the message it hands out, if any, and the
      positions the consumer reports afterwards. */
  datatype PollStep = PollStep(message: Option<Message>, positions: seq<Position>)

  /** The messages a script hands out, in order: what the consumer's blocking
      iterator yields, since it polls again after every empty result. */
  function Delivered(steps: seq<PollStep>): (ms: seq<Message>)
    ensures |ms| <= |steps|
    ensures forall m :: m in ms ==> exists i :: 0 <= i < |steps| && steps[i].message == Some(m)
  {
    if steps == [] then []
    else
      var rest := Delivered(steps[1..]);
      assert forall m :: m in rest ==> exists i :: 1 <= i < |steps| && steps[i].message == Some(m) by {
        forall m | m in rest ensures exists i :: 1 <= i < |steps| && steps[i].message == Some(m) {
          var j :| 0 <= j < |steps[1..]| && steps[1..][j].message == Some(m);
          assert steps[j + 1].message == Some(m);
        }
      }
      (if steps[0].message.Some? then [steps[0].message.value] else []) + rest
  }

  /**
   * A consumer handle. `assignment` is what assign() last installed, `positions`
   * what position() reports now, `script` what the broker will do on the coming
   * polls and `timeouts` the timeouts, in milliseconds, of the polls issued so far.
   */
  class BaseConsumer {
    var assignment: seq<TopicPartition>
    var positions: seq<Position>
    var script: seq<PollStep>
    var timeouts: seq<nat>

    constructor (script: seq<PollStep>)
      ensures this.script == script
      ensures assignment == [] && positions == [] && timeouts == []
    {
      this.script := script;
      assignment, positions, timeouts := [], [], [];
    }

    /** poll(timeout): takes the next step of the script. */
    method Poll(timeoutMs: nat) returns (m: Option<Message>)
      requires script != []
      modifies this
      ensures m == old(script[0].message)
      ensures positions == old(script[0].positions)
      ensures script == old(script[1..])
      ensures timeouts == old(timeouts) + [timeoutMs]
      ensures assignment == old(assignment)
    {
      m := script[0].message;
      positions := script[0].positions;
      script := script[1..];
      timeouts := timeouts + [timeoutMs];
    }

    /** assign(list): replaces the assignment and nothing else. */
    method Assign(list: seq<TopicPartition>)
      modifies this
      ensures assignment == list
      ensures positions == old(positions) && script == old(script) && timeouts == old(timeouts)
    {
      assignment := list;
    }
  }
}
