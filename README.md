# stream-shift tail reader, modelled in Dafny

stream-shift's command-line tool can take a bounded, one-shot "tail" of a Kafka
topic. `consumer::tail` in `cli/src/kafka.rs` does this in three steps. It takes
a snapshot of every partition's `(low, high)` watermarks. It plans one start
offset per partition: from the beginning, the last `limit` messages, or from a
timestamp that the broker resolves. It then assigns that plan to the consumer
and returns a `ConsumeAllIterator`. The iterator's `next` polls until a
message arrives or until `has_more` says the read is over. `has_more` compares
the positions the consumer reports with the snapshot.

The model has five modules:

- `Wrappers` (`wrappers.dfy`): `Option` and `Result`.
- `Client` (`client.dfy`): the rdkafka values the reader exchanges (`Offset`,
  `Watermark`, `TopicPartition`, `Position`, `Message`) and an abstract
  `BaseConsumer`. The broker's side of polling is a finite script of
  `PollStep`s. Each step is the message a poll hands out (or none) and the
  positions the consumer reports after it. The consumer also records the
  timeout of every poll, so the 150 ms / 15 ms pattern can be stated.
- `Planner` (`planner.dfy`): the watermark table, the per-partition choice
  `Target`, and the assignment loop `PlanAssignment`.
- `Reader` (`reader.dfy`): `ConsumeAllIterator` as a class. Its `offsets`
  snapshot is a `const` field, so nothing can change it after construction.
  `HasMore` is a loop over the reported positions. `Next` is a loop over polls,
  proved against the specification function `Drain`.
- `Consumer` (`consumer.dfy`): `Tail`, which ties planning, offset resolution
  and assignment together, and `TailLimit`.

Calls into the broker are inputs to the model:

- `fetch_metadata`, `fetch_watermarks`, `offsets_for_times` and whether
  `assign` succeeds: the `Broker` value given to `Tail`.
- `poll` and `position`: the consumer's script.
- The watermark table's `HashMap` iteration order: a parameter `order`, which
  must list every key exactly once.

Where the design description and the code disagree, the model follows the code:

- `has_more` overwrites its verdict on every position. So only the LAST
  reported position decides, and it must EQUAL the recorded `high` (or be the
  invalid-offset sentinel −1001). The description asks instead that every
  partition have reached `high` or gone past it. This reference condition is
  `Reader.AllCaughtUp`.
  - `Reader.LaggingPartitionIgnored` shows the read ending while a partition is
    still two messages short.
  - `Reader.OvershootKeepsPolling` shows that a last position past `high` keeps
    the loop polling.
- The description says mid-read decode errors abort the read with an error.
  The code unwraps the poll result, so they panic (left out, below).
- The description says a timestamp with no later message starts that partition
  at `high`. In the code this is the broker's answer to `offsets_for_times`,
  which is an input here.
- `main.rs` refuses `since` together with `limit`. `tail` itself does not
  require this: it ignores `limit` when `since` is given. So the planner has no
  such precondition, and `Planner.SinceIgnoresLimit` states the behaviour.
  `limit` is modelled as a plain integer, as the source's `i64` is.

## Model

| member | source | states |
|---|---|---|
| Planner.WatermarkTable | cli/src/kafka.rs:63-74 | the table's keys are exactly the partition ids in the topic metadata, and each id maps to the watermarks fetched for it |
| Planner.TableSize | cli/src/kafka.rs:63-74 | with pairwise distinct partition ids, the table has exactly one entry per listed partition |
| Planner.Target | cli/src/kafka.rs:77-102 | with a timestamp, the request is that timestamp whatever the limit; otherwise, for low <= high and a non-negative limit, the start (OffsetTail(n) read as high - n) lies in [low, high] and leaves exactly min(high - low, limit) offsets to read, or high - low without a limit |
| Planner.PlanAssignment | cli/src/kafka.rs:76-105 | the list holds exactly one entry per table key and no other partition, in the table's iteration order, all on the topic, each with the offset Target chooses from that partition's own watermarks |
| Planner.PlanWithinWatermarks | cli/src/kafka.rs:79-92 | without a timestamp, every planned partition starts inside its watermarks and spans min(high - low, limit) offsets |
| Planner.SinceIgnoresLimit | cli/src/kafka.rs:94-105 | on the timestamp path every entry requests the timestamp, and the plan is the same with or without a limit |
| Reader.ElementsForTopicExact | cli/src/kafka.rs:127-128 | the filtered position list holds exactly the reported positions that belong to the topic |
| Reader.ConsumeAllIterator.HasMore | cli/src/kafka.rs:126-138 | answers false exactly when the topic's position list is empty, or its last element is the invalid offset -1001 or equals that partition's recorded high |
| Reader.LastPositionDecides | cli/src/kafka.rs:130-135 | two non-empty position lists with the same last element get the same verdict, whatever comes before it |
| Reader.LaggingPartitionIgnored | cli/src/kafka.rs:130-137 | for the snapshot (0, 3), (0, 1), the verdict is "at end" while partition 0 is two messages short, so not every partition has caught up |
| Reader.ExactlyCaughtUpEnds | cli/src/kafka.rs:133-134 | positions that are all invalid or exactly at their high end the read, and they also meet the every-partition condition |
| Reader.OvershootKeepsPolling | cli/src/kafka.rs:133-134 | a last position past its recorded high that is not the sentinel does not end the read, because the comparison is equality |
| Reader.Drain | cli/src/kafka.rs:144-151 | one call of next takes at most as many polls as the script has; it stalls only after the whole script; otherwise it takes at least one poll |
| Reader.DrainWaitsBefore | cli/src/kafka.rs:145-148 | every poll before the last brought nothing, and has_more said yes after it; a stalled call saw only such polls |
| Reader.DrainLastPoll | cli/src/kafka.rs:146-150 | a returned message is the one the last poll brought; the end is returned only after an empty poll after which has_more said no |
| Reader.DrainStopsAtFirst | cli/src/kafka.rs:144-150 | the first poll that is not followed by another ends the call after exactly that many polls, with its message if it brought one and with the end otherwise |
| Reader.DrainDelivers | cli/src/kafka.rs:144-150 | next neither skips nor reorders messages: its message, followed by what the rest of the script hands out, is what the whole script hands out |
| Reader.EmptyPartitionEndsAtFirstPoll | cli/src/kafka.rs:144-148 | a single empty partition (5, 5), reported at 5, ends the read at the first empty poll, whatever the broker would do later |
| Reader.PollTimeouts | cli/src/kafka.rs:145-147 | of n polls, the first has the 150 ms timeout and every later one the 15 ms timeout |
| Reader.ConsumeAllIterator.PollAndCheck | cli/src/kafka.rs:145-147 | one poll takes the next script step, records its timeout and the positions reported after it, and answers whether the loop should poll again: the poll was empty and has_more said yes |
| Reader.ConsumeAllIterator.Next | cli/src/kafka.rs:144-151 | returns Drain's outcome on the script it starts from; that many script steps are consumed; the poll timeouts are 150 ms then 15 ms each; the reported positions become those of the last poll; the assignment and the snapshot do not change |
| Consumer.Tail | cli/src/kafka.rs:53-117 | a metadata error fails before anything is assigned; on success the iterator is new, is bound to this consumer and topic, and holds the watermark table of the metadata; without a timestamp the installed assignment is a plan for it; with a timestamp it is the broker's resolution of such a plan; a rejected lookup or assign fails and leaves the assignment untouched |
| Consumer.TailLimit | cli/src/kafka.rs:45-51 | at most limit messages, a prefix of the consumer's messages in their order, and all of them when there are fewer than limit |
| Client.Delivered | cli/src/kafka.rs:46-47 | the consumer's blocking iterator yields no more messages than there are polls, and each one is a message some poll handed out |

## Left out

- `create_admin_client` and `create_transient_consumer` (cli/src/kafka.rs:7-15, 35-43) only build client configuration, including a random group id.
- The broker and rdkafka themselves are not modelled. `fetch_metadata`, `fetch_watermarks`, `offsets_for_times`, `assign`, `position` and `poll` are inputs: the `Broker` value and the consumer's script.
- How the client turns `OffsetTail(n)` into a position is the library's business. The model reads it as `high - n`, and only inside lemmas.
- Panics are preconditions, not paths:
  - a missing topic in the metadata at :63;
  - a failed watermark fetch at :71 (`Fetched`);
  - a reported position, other than the −1001 sentinel, whose partition is missing from the snapshot at :134 (`KnownFor`, `ScriptKnown`);
  - a failed `position()` at :127;
  - a poll error unwrapped at :49 and :150. Messages in the model are always well formed.
- The `?` errors of `add_partition_offset` (:81-90, :96-103) depend on the library's offset encoding and are not modelled.
- How many messages a read yields per partition (high − low from the beginning, min(high − low, limit) for a last-N read) depends on what the broker delivers. The model proves the planned spans, not the delivered counts.
- Durations and wall-clock time are left out. Poll timeouts are recorded as plain milliseconds; the 30 s `DEFAULT_TIMEOUT` of the broker calls is not used.
- ISO-8601 parsing and the conversion of a timestamp to epoch milliseconds, with its truncating cast to i64 (cli/src/kafka.rs:100-101, cli/src/main.rs:99-102), are library calls. `Tail` takes the millisecond value directly.
- The `usize as i64` cast of the limit (cli/src/main.rs:107) and the i64 arithmetic of `end - start` are unbounded integers here. The planner handles any integer limit, and the range lemmas assume a non-negative one.
- cli/src/main.rs (argument parsing, chunking into 80, paging, printing, lossy UTF-8 decoding), cli/src/rendering.rs, src/bin/cli.rs and cli/src/lib.rs are UI, I/O or an older async revision.
- Reader.ConsumeAllIterator.Next: the source may poll forever. The model's broker script is finite, so a script that runs out while the loop would poll again ends the call with `Stalled`, a value the source does not have.
- Consumer.TailLimit: the source's iterator blocks until it has `limit` messages. The model returns fewer than `limit` when the given message sequence is shorter.
- Consumer.Tail: the positions the consumer reports are left as they were across `assign`. In the model only the poll script changes them.
