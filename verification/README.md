# A model of aiokafka's core, with proofs

This project models five parts of aiokafka in Dafny 4.11 and proves what each of them is for.
`dafny verify dfyconfig.toml` checks everything.

**Idempotent and transactional producer** (`Delivery`, `Accumulator`, `Transactions`). One
partition of the producer is a transition system: open a batch, append, drain, send, retry, fail,
expire, mute and unmute, run against a broker that appends a batch only at the next expected base
sequence and over a network that delays, repeats and drops requests and replies. Over every run no
batch is appended twice, the log is in creation order, every request for a batch carries the same
bytes, base sequences tile the record stream modulo 2^32, at most two batches are outstanding, and
every batch ever created is delivered, failed, held or queued, exactly one of them. The records given
to the producer are, in their order, those of the drained batches followed by those still queued, so
that without a failed batch the log is a prefix of what was given. A batch is
refused as out of order if and only if an earlier batch was lost for good; `ExpiryBlocks` is such a
run: a batch that expires without a leader has already taken its sequence numbers. `Transactions`
puts the transaction manager and the sender's transactional task around these partitions and proves
the order of add-partitions, produce, flush and EndTxn. Which task the sender takes up is said for
every state of every run: a commit and an abort are both carried out, EndTxn goes out exactly when the
transaction opened a batch or sent offsets, and by then every offset asked for is committed. The user's calls may come at any time: an
assertion of the manager fails exactly for a begin, commit, abort, send or send_offsets that its
state does not allow, and such a call changes nothing. One of them is not the user's mistake: a
`send` that finds a full batch passes the check in producer.py and waits; when a commit begins and
the batch is drained meanwhile, it wakes up to open a batch and fails in the manager
(`LateSendFails`). Two properties one might expect do not hold. Offsets are committed for a group
that was added to the transaction exactly when it is the group of the transaction's first call with
offsets, because only that one is ever added (`GroupOrder`, `SecondGroupNotAdded`). And a commit
goes out although a batch failed: what it lacks are failed batches only (`CommitHolds`), of which
some are missing (`CommitLacksExpired`) and some are in the log all the same (`CommitHasLost`). The
accumulator and the transaction manager are
classes whose methods are proved against the functions of the transition system, and
`TransactionalSender` runs the whole system through the manager's own methods.

**Consumer delivery** (`ReadCommitted`, `Consumer`, `Fetcher`). The streaming read_committed filter
is proved to yield exactly the records that a declarative reading of the whole log calls visible.
On top of it, between two explicit position changes, any interleaving of responses (stale and
repeated ones included), reads, pauses and errors in the middle of an iteration delivers strictly
increasing offsets, loses nothing and repeats nothing. The errors are a batch below the minimum
size, a wrong checksum, a record that does not parse, bytes left over after the last record, and a
deserializer that raises, each in any batch and at any record; no record is yielded from behind such
an error. A getall returns exactly as many of the visible records as it was asked for, as long as the
fetched stretch has them. `Serve` runs a session on the
objects themselves and states the same of what they return.

**Record batch codec** (`Bytes`, `Varint`, `Records`, `BatchFormat`, `RecordBatch`, `BatchReader`,
`ShiftRegister`, `Crc32c`, `CrcTable`). Zigzag varints, records, the batch header, builder, reader
and splitter with their round trips; every header field of a built batch by its place and its meaning; CRC-32C bit by bit (section B.4 of RFC 3720), by table and by
slicing-by-8, all proved equal for every buffer, initial value and alignment, and the proof that
damage to at most four consecutive covered bytes makes a batch's checksum wrong. The literal table
of the Python version is proved entry by entry. The splitter is modelled on every buffer: a negative length field
is refused, except that one whose batch would end before the buffer begins is counted from the
buffer's end and gives a slice that is no batch (`BrokenIsShortIff`, `BrokenIsTaken`).

**Sticky assignor** (`Scores`, `SortedSet`, `Movements`, `Assignment`, `PartitionOrder`, `Sticky`,
`Keeping`, `Setup`, `Cycle`, `Departed`, `Reordered`).
From the cluster metadata and the members' reports to the final assignment: coverage, exact inverse
dictionaries, the balance criterion of KIP-54 on exit, stickiness of the movement log, stability of
a settled assignment (so that assigning twice is assigning once), and the score as a termination
measure. The list the loop follows is described completely, and so is what follows from it: when all
members name the same topics in the same order, those of the cluster and none twice, and every
partition is reported once and in one generation, a member that reports no more than the number of
partitions divided by the number of members keeps all of it, because partitions are then taken up
from those who report the most. The order within the subscriptions matters: the source compares
lists, so with the same topics named in another order it sorts instead, and `Reordered` gives reports
for which a member with exactly its share then loses a partition. The measure works as long as every move takes from the consumer that was found to hold too
many; `SubstituteOnDonor` says exactly when the stickiness substitution does that. It does not
always: `Cycle` gives a cluster of twelve partitions and four members, of which three report what
they hold since one rebalance and one is new, for which `_perform_reassignments` never returns. The
executor is set up from these reports, its list of partitions sorted as the source sorts it; after six
moves the loop moves one partition to and fro for ever, because the substitution takes it from a
consumer that holds no more than the receiver. The loop is proved to end, after a number of passes
that the starting score bounds, and its result is never taken back, for members that subscribe alike
and have no earlier owners on record, and for members of which no three subscribe to a topic with
two partitions. When the moves are taken back, lists and owners go back, but the index and the movement log do not: they
describe the abandoned assignment, and `Balance` says so. The assumption that a member reporting a
partition from an earlier generation still subscribes to it is needed: `Departed` gives reports for
which the loop ends with a partition at a member that left its topic.

**Wire types** (`WireTypes`). The schema language as a datatype and the round trip of every in-range
value of every schema, nulls included, by structural induction.

Where code and documentation disagree the model follows the code: `encode_varint` documents the
number of bytes written and returns one less in its loop branch (`EncodeVarint`), and `pop_last` of
the sorted set leaves the first cache as it is (`SortedSet.PopLast`).

Assumptions: a request copy that still arrives, the batches the broker remembers and the end of its
log lie within one cycle of 2^32 records; a produce response covers every requested partition; a
builder is not appended to after it was submitted; transactions run without abortable and fatal
errors; batches arrive in offset order, the broker's aborted list belongs to the log, and the first
fetched batch holds the fetch offset; compression is lossless and UTF-8 decoding inverts encoding;
a member that reported a partition in an earlier generation still subscribes to it (for everything
from the reassignment loop on; reports of one generation, the only ones this library's own members
make, always satisfy it); there is at least one group member; topics are not internal. Consumer ids
are represented by their rank in string order.

## Model

| member | source | states |
|---|---|---|
| `Delivery.NextSeqInt32` | aiokafka/producer/transaction_manager.py:85-94 | one wrap keeps the sequence number in 32 bits if and only if the increment does not pass the top by a whole cycle |
| `Delivery.NextSeqIsWire` | aiokafka/producer/transaction_manager.py:88-94 | advancing the number of position x by a count gives the number of position x plus the count |
| `Delivery.WireInjective` | aiokafka/producer/transaction_manager.py:88-94 | positions less than a cycle of 2^32 apart have different numbers |
| `Delivery.StepKeeps` | aiokafka/producer/message_accumulator.py:393-456 | every event of a partition, network and broker keeps the invariant |
| `Delivery.RunKeeps` | aiokafka/producer/sender.py:139-153 | so does every run |
| `Delivery.AtMostOnceInOrder` | aiokafka/producer/message_accumulator.py:425-456 | in every run: no batch appended twice, log in creation order, all requests for a batch equal, delivered batches are in the log |
| `Delivery.SequencesTile` | aiokafka/producer/message_accumulator.py:425-438 | base sequences are int32, congruent modulo 2^32 to the records drained before, and consecutive by record count, over retries too |
| `Delivery.BoundedPipeline` | aiokafka/producer/message_accumulator.py:393-500 | at most two batches outstanding, in creation order with the held one first; every created batch is delivered, failed, held or queued, exactly one of them; a drained one in the queue is its head |
| `Delivery.ExactlyOnce` | aiokafka/producer/sender.py:772-802 | without failed batches the broker holds the drained records once each and in order, up to the unresolved batch |
| `Delivery.TakenGrows` | aiokafka/producer/message_accumulator.py:74-95 | opening a batch with records and appending a record add them to the end of what the producer holds or has drained; no other event changes it |
| `Delivery.GivenIsTaken` | aiokafka/producer/message_accumulator.py:380-450 | in every run the records of the opens and appends, in the order of the events, are those of the drained batches followed by those queued and not drained yet |
| `Delivery.LogIsPrefixOfGiven` | aiokafka/producer/sender.py:772-802 | without failed batches the log is a prefix of the records given |
| `Delivery.RefusedIffGap` | aiokafka/producer/message_accumulator.py:458-500 | the batch being sent is refused if and only if an earlier non-empty batch never reached the log |
| `Delivery.ExpiryBlocks` | aiokafka/producer/message_accumulator.py:458-500 | such a run: after an expiry without a leader the next batch is refused |
| `Delivery.NoFailureNoGap` | aiokafka/producer/sender.py:148-153 | without failed batches there is no such gap, so retrying is safe |
| `Delivery.AppendsAtEnd` | aiokafka/producer/message_accumulator.py:121-126 | a batch in sequence for the broker is the one that starts where the log ends |
| `Delivery.RememberedInLog` | aiokafka/producer/message_accumulator.py:121-126 | what the broker takes for a duplicate is in its log |
| `Accumulator.MessageAccumulator.AppendBatch` | aiokafka/producer/message_accumulator.py:525-534 | a new batch at the end of the partition's queue, other partitions unchanged |
| `Accumulator.MessageAccumulator.AddMessage` | aiokafka/producer/message_accumulator.py:380-417 | one round: append to the newest batch if it takes the message, else queue a batch only behind an empty queue; the records queued grow by the message, at their end, exactly when it is accepted |
| `Accumulator.MessageAccumulator.AddBatch` | aiokafka/producer/message_accumulator.py:536-568 | a whole builder is queued only when nothing is queued, and then its records are what is queued |
| `Accumulator.MessageAccumulator.PopBatch` | aiokafka/producer/message_accumulator.py:425-450 | the head leaves the queue, is pending, takes a sequence number on its first drain only |
| `Accumulator.MessageAccumulator.PutBack` | aiokafka/producer/message_accumulator.py:452-456 | a batch to retry is at the front again and no longer pending |
| `Accumulator.MessageAccumulator.DrainByNodes` | aiokafka/producer/message_accumulator.py:458-500 | at most one batch per partition, with its leader; muted, ignored and leaderless partitions as the source treats them; exactly the batches handed out become pending; no queued batch is pending |
| `Accumulator.DrainCases` | aiokafka/producer/message_accumulator.py:458-500 | a muted or empty partition, one without a leader, in time or expired, one led by a busy node and one that can be sent, each with what becomes of its queue and what is handed out |
| `Transactions.TransactionManager.Transition` | aiokafka/producer/transaction_manager.py:106-130 | changes state exactly on the valid transitions |
| `Transactions.TransactionManager.MaybeAddPartition` | aiokafka/producer/transaction_manager.py:164-170 | a partition not yet in the transaction becomes pending, only inside a transaction |
| `Transactions.TransactionManager.AddOffsetsToTxn` | aiokafka/producer/transaction_manager.py:172-178 | offsets are queued behind earlier ones |
| `Transactions.TransactionManager.AddedPartition` | aiokafka/producer/transaction_manager.py:200-202 | a pending partition becomes part of the transaction |
| `Transactions.TransactionManager.CommittedOffset` | aiokafka/producer/transaction_manager.py:207-216 | a committed offset leaves the oldest request, which goes when empty |
| `Transactions.TransactionManager.CompleteTransaction` | aiokafka/producer/transaction_manager.py:132-139 | both assertions and the transition decide whether the state is cleared |
| `Transactions.UserCallKeeps` | aiokafka/producer/producer.py:501-508 | a call of the user goes through if and only if the manager's state allows it, and then keeps the invariant |
| `Transactions.ActionKeeps` | aiokafka/producer/sender.py:303-389 | every action of user, sender and partitions keeps the invariant; an assertion fails if and only if the action is a call of the user at the wrong time |
| `Transactions.FlushedKeeps` | aiokafka/producer/message_accumulator.py:352-365 | when the flush returns every partition is quiet |
| `Transactions.TransactionOrder` | aiokafka/producer/sender.py:123-145 | in every run, with calls at any time: no assertion fails but on a call at the wrong time, which changes nothing; batches are drained only from added partitions, EndTxn is out only when nothing is open, and a new transaction finds nothing open |
| `Transactions.TaskTaken` | aiokafka/producer/sender.py:303-327 | in every run, the task the sender takes up, case by case and both directions: partitions, the group, offsets, the end of a transaction that is committing or aborting with none of these left, and nothing only when ready or in a transaction with nothing to do |
| `Transactions.FlushTakesNothing` | aiokafka/producer/message_accumulator.py:352-365 | in every run no batch takes a record while the transaction is flushed or ended |
| `Transactions.EndIsSent` | aiokafka/producer/sender.py:370-389 | in every run EndTxn goes out after the flush if and only if the transaction opened a batch or sent offsets; either way the producer ends ready with nothing left |
| `Transactions.OffsetsKept` | aiokafka/producer/transaction_manager.py:172-216 | in every run the offsets asked for are those committed and those waiting, all of them committed when EndTxn is out |
| `Transactions.AbortRuns` | aiokafka/producer/sender.py:370-389 | a transaction that is aborted is flushed, ended with EndTxn and leaves the producer ready |
| `Transactions.LateSendFails` | aiokafka/producer/message_accumulator.py:393-417 | a run to a full batch inside a transaction, on which a send waits; once the commit began and the batch was drained, the send that opens the next batch fails the assertion |
| `Transactions.GroupOrder` | aiokafka/producer/transaction_manager.py:186-198 | in every run: offsets are being committed for an added group if and only if it is the group of the transaction's first call with offsets; no other is ever added |
| `Transactions.SecondGroupNotAdded` | aiokafka/producer/sender.py:316-327 | a run with two groups in which the offsets of the second go out and only the first was added |
| `Transactions.CommitHolds` | aiokafka/producer/sender.py:370-389 | when EndTxn is out every batch is delivered or failed, and a non-empty one that did not fail is in the log |
| `Transactions.CommitLacksExpired` | aiokafka/producer/sender.py:370-389 | a run in which EndTxn of a commit goes out without a batch that expired |
| `Transactions.CommitHasLost` | aiokafka/producer/sender.py:845-861 | a run in which a batch failed and is in the log nevertheless |
| `Transactions.TransactionalSender.Do` | aiokafka/producer/sender.py:123-145 | every action through the manager's methods is the system's action; the manager refuses exactly the calls at the wrong time |
| `ReadCommitted.ConsumeSplits` | aiokafka/consumer/fetcher.py:275-285 | what is consumed of the aborted list is exactly what starts at or before the offset |
| `ReadCommitted.FilterStep` | aiokafka/consumer/fetcher.py:228-259 | a batch header keeps the meaning of the aborted-producer set |
| `ReadCommitted.FilterDecides` | aiokafka/consumer/fetcher.py:228-259 | a data batch is skipped if and only if its transaction was aborted |
| `ReadCommitted.AdvanceRaises` | aiokafka/consumer/fetcher.py:198-273 | a generator that raises stands where it stood or after a whole batch it passed, and only stops from then on |
| `ReadCommitted.StepFollows` | aiokafka/consumer/fetcher.py:209-273 | one round of the generator stays on the log and passes over nothing visible |
| `ReadCommitted.AdvanceFollows` | aiokafka/consumer/fetcher.py:198-273 | a resumed reader yields exactly the next visible record |
| `ReadCommitted.StreamIsVisible` | aiokafka/consumer/fetcher.py:209-309 | a reader run to its end, as on an undamaged copy, yields exactly the visible records of the fetched stretch, in order; if it raises, what it yielded and what is visible from its offset are what was visible |
| `ReadCommitted.RestIsVisible` | aiokafka/consumer/fetcher.py:209-309 | an undamaged reader anywhere in its stretch still has exactly the visible records from its offset on |
| `ReadCommitted.YieldsReadable` | aiokafka/consumer/fetcher.py:209-273 | whatever the damage, a record is yielded only from a batch that is long enough and, when checksums are checked, has the right one, and only if it stands before the first record that does not parse and its values can be deserialized |
| `ReadCommitted.SortListSorted` | aiokafka/consumer/fetcher.py:168-196 | the aborted list is sorted by first offset and keeps its entries |
| `Consumer.TakeReading` | aiokafka/consumer/fetcher.py:124-139 | taking up to a maximum yields a prefix of what is visible and loses nothing |
| `Consumer.AllReturns` | aiokafka/consumer/fetcher.py:124-139 | a getall on a usable undamaged result returns exactly the first of the visible records of the rest of the stretch, as many as asked for or all there are, at least one if there is one |
| `Consumer.OneReturns` | aiokafka/consumer/fetcher.py:112-122 | a getone on such a result returns the first of them, if there is one |
| `Consumer.TakeBounded` | aiokafka/consumer/fetcher.py:124-139 | whatever the result holds, a getall returns at most what it was asked for, and at most one record for a maximum of 0 |
| `Consumer.OneKeeps` | aiokafka/consumer/fetcher.py:112-122 | a getone keeps the account of the session, whether it returns, ends or raises |
| `Consumer.AllKeeps` | aiokafka/consumer/fetcher.py:124-139 | so does a getall, which drops what it gathered when it raises |
| `Consumer.EventKeeps` | aiokafka/consumer/fetcher.py:713-767 | every response, read, pause and resume keeps: delivered plus visible from the position is visible from the start |
| `Consumer.NoLossNoDuplicate` | aiokafka/consumer/subscription_state.py:503-552 | over every run between position changes, with errors in any header, at any record and at the end of any batch: strictly increasing offsets, nothing lost or repeated, refetching continues where delivery stopped |
| `Fetcher.PartitionRecords.ConsumeAborted` | aiokafka/consumer/fetcher.py:275-285 | the loop moves entries from the list to the set as the specification says |
| `Fetcher.PartitionRecords.Header` | aiokafka/consumer/fetcher.py:228-259 | list, set and skip decision after a batch header |
| `Fetcher.PartitionRecords.Next` | aiokafka/consumer/fetcher.py:198-309 | the generator loop equals the specified advance, errors inside a batch included |
| `Fetcher.FetchedPartition.Check` | aiokafka/consumer/fetcher.py:75-106 | a result counts only for an unpaused partition at its own offset |
| `Fetcher.FetchedPartition.One` | aiokafka/consumer/fetcher.py:112-122 | getone against its specification; at most one record; a result that cannot be used is dropped and the position stays |
| `Fetcher.FetchedPartition.All` | aiokafka/consumer/fetcher.py:124-139 | getall against its specification; at most as many records as asked for; an exception drops what was gathered and leaves the position, a result that cannot be used is dropped |
| `Fetcher.FetchedPartition.Accepted` | aiokafka/consumer/fetcher.py:713-767 | a response is kept only if it answers the current position; any other changes nothing |
| `Fetcher.FetchedPartition.Do` | aiokafka/consumer/fetcher.py:713-767 | an event on the objects is the event of the session |
| `Fetcher.FetchedPartition.Serve` | aiokafka/consumer/fetcher.py:1203-1233 | a seek or a finished reset and then any events: the records returned are those visible from the start up to the position, strictly increasing |
| `ShiftRegister.FeedWindow` | aiokafka/record/_crecords/crc32c.c:112-124 | feeding a window of bytes is feeding their combination with the register |
| `ShiftRegister.EightLookups` | aiokafka/record/_crecords/crc32c.c:112-124 | eight steps of a linear register are eight table lookups |
| `Crc32c.RegisterIsFeed` | aiokafka/record/_crecords/crc32c.c:75-98 | the bit-at-a-time register is the byte-fed register |
| `Crc32c.UpdateConcat` | aiokafka/record/_crc32c.py:101-117 | updating over a and then b is updating over a followed by b |
| `Crc32c.BurstChangesCrc` | aiokafka/record/_crc32c.py:101-117 | damage within four consecutive bytes changes the checksum, whatever surrounds it |
| `Crc32c.FirstEntry` | aiokafka/record/_crecords/crc32c.c:79-90 | eight shifts give the entry of a byte |
| `Crc32c.FillFirst` | aiokafka/record/_crecords/crc32c.c:79-90 | the first table holds the register step of every byte |
| `Crc32c.FillColumn` | aiokafka/record/_crecords/crc32c.c:91-97 | the other tables hold the entry moved on by further zero bytes |
| `Crc32c.InitTables` | aiokafka/record/_crecords/crc32c.c:75-98 | all eight tables |
| `Crc32c.SliceAbsorbs` | aiokafka/record/_crecords/crc32c.c:112-124 | one quadword step is eight byte steps |
| `Crc32c.Crc32cSw` | aiokafka/record/_crecords/crc32c.c:103-131 | slicing-by-8 equals the bit-at-a-time checksum for every buffer, initial value and alignment |
| `Crc32c.TableStep` | aiokafka/record/_crc32c.py:113-117 | one table lookup is one byte step |
| `CrcTable.LiteralIsEntry` | aiokafka/record/_crc32c.py:30-95 | every literal of the table is its byte shifted eight times |
| `CrcTable.CrcUpdate` | aiokafka/record/_crc32c.py:101-117 | byte-at-a-time over the literal table equals the bit-at-a-time checksum |
| `Varint.ZigZagRoundTrip` | aiokafka/record/util.py:20-20 | unzigzag of the zigzag of every int64 is the value |
| `Varint.ZigZagBits` | aiokafka/record/util.py:20-20 | the lowest bit is the sign, the others the magnitude |
| `Varint.GroupsWeigh` | aiokafka/record/util.py:45-58 | the groups, the lowest first and seven bits each, add up to the number, and exactly those before the last have the continuation bit |
| `Varint.SizeIsLength` | aiokafka/record/util.py:61-82 | the size is the number of bytes written, at most ten |
| `Varint.EncodeVarint` | aiokafka/record/util.py:8-58 | the bytes are the seven-bit groups of the zigzag value; the returned count is their number if and only if the zigzag value is at most 0x7FFFFFFFF, else one less |
| `Varint.DecodeVarint` | aiokafka/record/util.py:85-114 | fast paths and loop equal the specified reading, with both errors |
| `Varint.RoundTrip` | aiokafka/record/util.py:8-114 | every int64 is read back from any position, with the position just past it |
| `Bytes.UnsignedRoundTrip` | aiokafka/record/default_records.py:98-112 | big-endian unsigned integers are read back |
| `Bytes.SignedRoundTrip` | aiokafka/record/default_records.py:98-112 | big-endian two's complement integers are read back |
| `Bytes.BigEndian` | aiokafka/record/default_records.py:98-112 | the bytes are the digits to the base 256, the highest first |
| `Records.NullableReadBack` | aiokafka/record/default_records.py:276-288 | optional byte strings are read back, the single byte 1 as None |
| `Records.HeadersReadBack` | aiokafka/record/default_records.py:290-315 | headers are read back in order |
| `Records.RecordReadBack` | aiokafka/record/default_records.py:247-327 | a record standing in a buffer is read back up to its last byte |
| `Records.RecordExample` | tests/record/test_records.py:14-27 | the bytes of a record in a stored batch |
| `Records.FieldsExample` | aiokafka/record/default_records.py:474-506 | the place of key, value and header in the bytes of a record |
| `BatchFormat.HeadReadBack` | aiokafka/record/default_records.py:157-225 | every header field is read back |
| `BatchFormat.AttributesReadBack` | aiokafka/record/default_records.py:419-427 | codec, timestamp type, transactional and control flags of the attributes a builder writes |
| `BatchFormat.SealedHolds` | aiokafka/record/default_records.py:531-551 | a written header has the right checksum, and header and data are read back |
| `BatchFormat.DamageIsNoticed` | aiokafka/record/default_records.py:351-357 | a batch with the right checksum has a wrong one after damage to at most four consecutive covered bytes |
| `BatchFormat.PayloadAppend` | aiokafka/record/default_records.py:526-527 | appending a record appends its bytes to the payload |
| `BatchFormat.RecordsReadBack` | aiokafka/record/default_records.py:333-349 | all records of a payload are read back and every byte is consumed |
| `BatchFormat.SealedReadBack` | aiokafka/record/default_records.py:227-245 | plain or compressed, at any base offset the broker gives, the records are read back |
| `BatchFormat.LatestIsMaximum` | aiokafka/record/default_records.py:520-522 | the maximum timestamp is the maximum |
| `BatchFormat.BatchRoundTrip` | aiokafka/record/default_records.py:429-584 | the built batch has the right checksum and reading it gives exactly the appended records, compression used, skipped or not beneficial |
| `BatchFormat.HeaderIsSaid` | aiokafka/record/default_records.py:531-551 | a built batch, field by field at its byte: length, magic, codec, transactional bit, last offset, first and maximum timestamp, producer id, epoch, base sequence and number of records |
| `RecordBatch.SizeOf` | aiokafka/record/default_records.py:610-641 | the size of key, value and headers is the number of bytes they take |
| `RecordBatch.EstimateIsUpper` | aiokafka/record/default_records.py:643-655 | with a 32-bit offset a record takes at most 21 bytes more than key, value and headers |
| `RecordBatch.WriteBody` | aiokafka/record/default_records.py:474-506 | the message buffer is the specified record body |
| `RecordBatch.BatchBuilder.SizeInBytes` | aiokafka/record/default_records.py:590-608 | the size reported before writing is the size written |
| `RecordBatch.BatchBuilder.Append` | aiokafka/record/default_records.py:429-529 | refused if and only if not first and too long; otherwise the framed record is appended; two or more records stay within the batch size |
| `RecordBatch.BatchBuilder.MaybeCompress` | aiokafka/record/default_records.py:553-579 | data replaced in place exactly when compression makes it shorter; missing codec reported |
| `RecordBatch.BatchBuilder.WriteHeader` | aiokafka/record/default_records.py:531-551 | the buffer is the sealed batch over the same data |
| `RecordBatch.BatchBuilder.Build` | aiokafka/record/default_records.py:581-584 | the result is the specified batch of all accepted records, within the batch size when there are two or more; its header says, field by field at its byte, what the builder was given |
| `BatchReader.ReadHeaders` | aiokafka/record/default_records.py:290-315 | the header loop equals the specified reading, errors included |
| `BatchReader.ReadMessage` | aiokafka/record/default_records.py:247-327 | reading one record equals the specified reading, the length check included |
| `BatchReader.ParseOneMore` | aiokafka/record/default_records.py:333-349 | reading k records and then one is reading k + 1; a failure there fails every longer reading |
| `BatchReader.RecordIterator.ValidateCrc` | aiokafka/record/default_records.py:351-357 | true if and only if the stored checksum is that of the covered bytes |
| `BatchReader.RecordIterator.Begin` | aiokafka/record/default_records.py:227-245 | fails only when the batch cannot be read |
| `BatchReader.RecordIterator.Next` | aiokafka/record/default_records.py:333-349 | stops only with the records of the whole batch and no byte left, fails only when the batch cannot be read |
| `BatchReader.BufferSplits` | aiokafka/record/memory_records.py:59-82 | every buffer is whole batches and a rest that is partial or has a negative length |
| `BatchReader.JoinedSplits` | aiokafka/record/memory_records.py:59-82 | joined batches are found again, whatever rest follows |
| `BatchReader.BrokenIsShortIff` | aiokafka/record/memory_records.py:75-98 | a slice cut by a negative length is below the minimum, and so refused, if and only if its end is not before the buffer, or fewer than 26 bytes are left when it is counted from the buffer's end |
| `BatchReader.BrokenIsTaken` | aiokafka/record/memory_records.py:75-104 | the length -13 at the start of a buffer makes all but its last byte a batch |
| `BatchReader.BatchSplitter.CacheNext` | aiokafka/record/memory_records.py:59-82 | on any buffer: the next whole batch is cached, or the size of a partial rest, or the slice of a broken one |
| `BatchReader.BatchSplitter.NextBatch` | aiokafka/record/memory_records.py:88-104 | the whole batches of any buffer come one by one in order, then none; a slice below the minimum is an error and stays; only a broken rest gives a slice that is no batch |
| `BatchReader.SealedIsWhole` | aiokafka/record/default_records.py:531-551 | the length field of a written batch is the one the splitter needs |
| `SortedSets.SortedSet.First` | aiokafka/coordinator/assignors/sticky/sorted_set.py:30-39 | a minimum by key, none for the empty set; the cache stays right |
| `SortedSets.SortedSet.Last` | aiokafka/coordinator/assignors/sticky/sorted_set.py:41-50 | a maximum by key, none for the empty set |
| `SortedSets.SortedSet.PopLast` | aiokafka/coordinator/assignors/sticky/sorted_set.py:52-60 | takes a maximum; the caches are right afterwards if and only if it was not cached as the first |
| `SortedSets.SortedSet.Add` | aiokafka/coordinator/assignors/sticky/sorted_set.py:62-72 | adds the element and keeps both caches right |
| `SortedSets.SortedSet.Remove` | aiokafka/coordinator/assignors/sticky/sorted_set.py:74-80 | removes the element and keeps both caches right; says whether it was there |
| `SortedSets.SortedSet.Ascending` | aiokafka/coordinator/assignors/sticky/sorted_set.py:85-86 | the elements, each once, in ascending order |
| `SortedSets.ScanFirst` | aiokafka/coordinator/assignors/sticky/sorted_set.py:34-37 | the scan finds a minimum |
| `SortedSets.ScanLast` | aiokafka/coordinator/assignors/sticky/sorted_set.py:45-48 | the scan finds a maximum |
| `Movements.MoveKeepsSticky` | aiokafka/coordinator/assignors/sticky/partition_movements.py:54-91 | every move the substitution allows keeps: records name the present owner, no topic shows a pair and its reverse |
| `Movements.SubstituteOnDonor` | aiokafka/coordinator/assignors/sticky/partition_movements.py:79-91 | the partition moved sits on the same donor if and only if the asked one had not moved, or nothing of its topic went from the receiver to its origin |
| `Movements.ListedIffShown` | aiokafka/coordinator/assignors/sticky/partition_movements.py:107-125 | a pair is in the index of a topic if and only if some record has it |
| `Movements.IsSublist` | aiokafka/coordinator/assignors/sticky/partition_movements.py:26-39 | true if and only if the target occurs as a stretch |
| `Movements.IsLinked` | aiokafka/coordinator/assignors/sticky/partition_movements.py:159-178 | a direct pair is found and adds two to the path; any longer way adds more |
| `Movements.HasCycles` | aiokafka/coordinator/assignors/sticky/partition_movements.py:127-147 | true if and only if some pair and its reverse are there |
| `Movements.PartitionMovements.MovePartition` | aiokafka/coordinator/assignors/sticky/partition_movements.py:54-72 | the records after a move, the index by topic remaining their exact grouping |
| `Movements.PartitionMovements.PartitionToBeMoved` | aiokafka/coordinator/assignors/sticky/partition_movements.py:74-91 | the asked partition, or one recorded from the receiver to its origin if there is one |
| `Movements.PartitionMovements.AreSticky` | aiokafka/coordinator/assignors/sticky/partition_movements.py:93-105 | true if and only if no topic shows an exchange |
| `Scores.BalanceScore` | aiokafka/coordinator/assignors/sticky/sticky_assignor.py:640-667 | the loops compute the sum of pairwise differences |
| `Scores.ScoreOrderless` | aiokafka/coordinator/assignors/sticky/sticky_assignor.py:655-667 | the score does not depend on the order of the consumers |
| `Scores.MoveLowersScore` | aiokafka/coordinator/assignors/sticky/sticky_assignor.py:640-667 | for any number of consumers a move lowers the score if and only if the donor holds at least two more, and keeps it if and only if it holds one more |
| `Scores.ScoreBound` | aiokafka/coordinator/assignors/sticky/sticky_assignor.py:640-667 | the score is at most the square of the number of consumers times the largest size |
| `Assignment.ShiftKeepsMirror` | aiokafka/coordinator/assignors/sticky/sticky_assignor.py:632-634 | a move keeps lists and owners exact inverses without repetitions |
| `Assignment.ShiftedEntries` | aiokafka/coordinator/assignors/sticky/sticky_assignor.py:621-637 | two removals and two additions give the index of the moved assignment |
| `Assignment.ShiftLowersScore` | aiokafka/coordinator/assignors/sticky/sticky_assignor.py:193-201 | a move from a consumer holding two more lowers the assignment's score |
| `Assignment.OwnersOf` | aiokafka/coordinator/assignors/sticky/sticky_assignor.py:294-296 | the owners read off the lists are the owners |
| `PartitionOrder.PrecedesOrder` | aiokafka/coordinator/assignors/sticky/sticky_assignor.py:64-67 | the comparison of partitions is a strict total order |
| `PartitionOrder.SortAll` | aiokafka/coordinator/assignors/sticky/sticky_assignor.py:312-320 | all partitions in ascending order |
| `PartitionOrder.AscendingUnique` | aiokafka/coordinator/assignors/sticky/sticky_assignor.py:312-320 | there is only one such list |
| `PartitionOrder.Identical` | aiokafka/coordinator/assignors/sticky/sticky_assignor.py:46-57 | comparing neighbours tells whether all are equal |
| `PartitionOrder.Pick` | aiokafka/coordinator/assignors/sticky/sticky_assignor.py:352-370 | a partition that had another owner before, if there is one, else the last |
| `PartitionOrder.Deal` | aiokafka/coordinator/assignors/sticky/sticky_assignor.py:328-370 | dealing ends with nothing left: each time the consumer with the most left, by size and then name, gives a partition that had another owner before, else its last; no partition comes twice; the cached first element never goes stale |
| `PartitionOrder.PopulateSorted` | aiokafka/coordinator/assignors/sticky/sticky_assignor.py:312-378 | every known partition is listed exactly once: those dealt, in a reassignment in which all dictionaries agree, and then the others in sorted order |
| `Sticky.BalancedIsSettled` | aiokafka/coordinator/assignors/sticky/sticky_assignor.py:456-499 | whichever way the balance test says yes, the KIP-54 criterion holds for every partition |
| `Sticky.RivalsParticipate` | aiokafka/coordinator/assignors/sticky/sticky_assignor.py:512-536 | everyone who competes for a partition takes part, so no lookup meets a consumer set aside |
| `Sticky.Executor.IsBalanced` | aiokafka/coordinator/assignors/sticky/sticky_assignor.py:456-499 | true if and only if the sizes differ by at most one or nobody could gain from a consumer that holds more |
| `Sticky.Executor.NothingToGain` | aiokafka/coordinator/assignors/sticky/sticky_assignor.py:482-498 | one consumer's part of the test, both directions |
| `Sticky.Executor.AssignPartition` | aiokafka/coordinator/assignors/sticky/sticky_assignor.py:501-510 | the partition goes to the least consumer among those that may hold it, by number and then by name; the structures stay in step |
| `Sticky.Executor.AssignAll` | aiokafka/coordinator/assignors/sticky/sticky_assignor.py:151-156 | what waits is handed out in its order, each to the least consumer that may hold it at that time; everything somebody may hold is then held |
| `Sticky.Executor.MovePartition` | aiokafka/coordinator/assignors/sticky/sticky_assignor.py:621-637 | lists, owners, index and movement log after a move; the index removals never raise |
| `Sticky.Executor.LeastPotential` | aiokafka/coordinator/assignors/sticky/sticky_assignor.py:602-608 | the least consumer that may hold the partition, none only if nobody may |
| `Sticky.Executor.ReassignTo` | aiokafka/coordinator/assignors/sticky/sticky_assignor.py:611-619 | the substitute moves, and every invariant holds again |
| `Sticky.Executor.Consider` | aiokafka/coordinator/assignors/sticky/sticky_assignor.py:549-596 | one turn of the loop as the relation `Turn` says; moves if and only if somebody who may hold the partition has two fewer than its owner |
| `Sticky.Executor.Pass` | aiokafka/coordinator/assignors/sticky/sticky_assignor.py:544-599 | a pass without change leaves every listed partition settled; moves on the donor lower the score by their number |
| `Sticky.Executor.PerformReassignments` | aiokafka/coordinator/assignors/sticky/sticky_assignor.py:538-600 | on exit every listed partition meets KIP-54; settled lists stay; either the loop has ended, or every pass so far moved something; moves on the donor bound the passes by the score, and moves stay there when members subscribe alike or have few rivals |
| `Sticky.Executor.SetAside` | aiokafka/coordinator/assignors/sticky/sticky_assignor.py:168-177 | the consumers set aside and those kept are all of them; kept are exactly those that can give or receive, so every rival |
| `Sticky.Executor.CanParticipate` | aiokafka/coordinator/assignors/sticky/sticky_assignor.py:517-536 | true if and only if the consumer can give or receive |
| `Sticky.Executor.Narrow` | aiokafka/coordinator/assignors/sticky/sticky_assignor.py:158-166 | exactly the partitions with fewer than two possible consumers are taken out, the others keep their order |
| `Sticky.Executor.Restore` | aiokafka/coordinator/assignors/sticky/sticky_assignor.py:203-206 | the lists set aside are back, in the assignment and the index |
| `Sticky.Executor.Reassign` | aiokafka/coordinator/assignors/sticky/sticky_assignor.py:184-188 | both reassignments, the first only when nothing was revoked; every partition of the second list settled on exit, the score lower by the moves on the donor; with nothing handed out an end is an end of the second loop |
| `Sticky.Executor.Improve` | aiokafka/coordinator/assignors/sticky/sticky_assignor.py:179-201 | reassignments and the revert, which happens if and only if something was held before, the second list was not settled when its loop began, and the score is not lower; consistent and covered either way, never reverted when every move was on the donor; index and movement log describe what was tried, also after a revert |
| `Sticky.Executor.Prepare` | aiokafka/coordinator/assignors/sticky/sticky_assignor.py:144-177 | index built, everything handed out that somebody may hold, in the order of the list and to the least each time; lists and consumers narrowed to those that can change |
| `Sticky.Executor.Conclude` | aiokafka/coordinator/assignors/sticky/sticky_assignor.py:203-206 | with the consumers set aside back, what held among those who took part holds among all |
| `Sticky.Executor.Finish` | aiokafka/coordinator/assignors/sticky/sticky_assignor.py:179-206 | the second half: consistent, covered and settled unless reverted, the stations the loops passed, what was set aside is back |
| `Sticky.AlikeMoves` | aiokafka/coordinator/assignors/sticky/sticky_assignor.py:602-637 | among consumers that subscribe alike what moved stays, every asked partition moves itself, and the receiver never holds two more than another |
| `Sticky.FewOnDonor` | aiokafka/coordinator/assignors/sticky/partition_movements.py:79-91 | when every topic has one partition or two possible consumers a substitute is with the consumer found to hold too many |
| `Sticky.TurnLowers` | aiokafka/coordinator/assignors/sticky/sticky_assignor.py:549-596 | for such groups, and for members that subscribe alike, every turn that moves something keeps the state in order and lowers the score |
| `Sticky.RunsLower` | aiokafka/coordinator/assignors/sticky/sticky_assignor.py:538-600 | so the source's unbounded loop goes round no more often than its starting score says |
| `Sticky.StartBound` | aiokafka/coordinator/assignors/sticky/sticky_assignor.py:640-667 | the score of any assignment is at most the members squared times the partitions |
| `Sticky.Executor.Balance` | aiokafka/coordinator/assignors/sticky/sticky_assignor.py:144-206 | coverage by one subscriber each, exact inverse, KIP-54 unless reverted, no exchange, stability; what is handed out to whom, who takes part, both loops in order, and exactly when the moves are taken back; index and movement log describe what was tried, which is the result unless reverted; no revert and an end when moves stay on the donor, which they do for members that subscribe alike and for topics with one partition or two possible consumers |
| `Keeping.DealtMostFirst` | aiokafka/coordinator/assignors/sticky/sticky_assignor.py:346-370 | when a partition is dealt, nobody has more left than its owner had at first |
| `Keeping.ShareIsSafe` | aiokafka/coordinator/assignors/sticky/sticky_assignor.py:584-596 | when nobody has more left to take up than a consumer with its share or less, that consumer holds at most one more than any other |
| `Keeping.SmallKeeps` | aiokafka/coordinator/assignors/sticky/sticky_assignor.py:538-600 | among consumers that subscribe alike, with partitions taken up from those who hold the most, one with no more than its share keeps all it held, however many passes are made |
| `Keeping.FirstIsGiven` | aiokafka/coordinator/assignors/sticky/sticky_assignor.py:538-600 | among consumers that subscribe alike the first partition of the list, if somebody holds two fewer than its owner, leaves its owner for good |
| `Setup.SubscribersSay` | aiokafka/coordinator/assignors/sticky/sticky_assignor.py:226-240 | a consumer is a potential consumer of a partition if and only if it subscribes to the topic |
| `Setup.Initialize` | aiokafka/coordinator/assignors/sticky/sticky_assignor.py:215-242 | both dictionaries from cluster and subscriptions; what each member may hold is listed topic by topic in the order of its subscription |
| `Setup.ClaimantClaims` | aiokafka/coordinator/assignors/sticky/sticky_assignor.py:256-278 | a recorded holder made the claim, and some holder is recorded whenever a claim was made |
| `Setup.FirstClaimStands` | aiokafka/coordinator/assignors/sticky/sticky_assignor.py:258-273 | outside generation 0 the first claim of a generation stands |
| `Setup.CollectClaims` | aiokafka/coordinator/assignors/sticky/sticky_assignor.py:253-278 | the reports by partition and generation |
| `Setup.Resolve` | aiokafka/coordinator/assignors/sticky/sticky_assignor.py:280-296 | the latest claimant owns the partition, the one before is on record as previous, lists and owners are inverses |
| `Setup.FreshIs` | aiokafka/coordinator/assignors/sticky/sticky_assignor.py:292-296 | the assignment counts as fresh if and only if nobody reports anything |
| `Setup.Sift` | aiokafka/coordinator/assignors/sticky/sticky_assignor.py:392-413 | of one list: what goes, what waits in the order it waited, and whether a known partition lost its holder |
| `Setup.Review` | aiokafka/coordinator/assignors/sticky/sticky_assignor.py:392-413 | one list keeps what exists and is subscribed to; the rest of the waiting list in its order; whether something was revoked |
| `Setup.Populate` | aiokafka/coordinator/assignors/sticky/sticky_assignor.py:380-415 | the allowed part of the assignment stays, consistent; exactly the unowned partitions wait, in the order of the list; revocation if and only if a known partition lost its owner |
| `Setup.GroupIsWellFormed` | aiokafka/coordinator/assignors/sticky/sticky_assignor.py:215-242 | the dictionaries agree, and possible holders are the subscribers |
| `Setup.SettledIsFair` | aiokafka/coordinator/assignors/sticky/sticky_assignor.py:674-678 | a settled assignment is fair in terms of the members' subscriptions |
| `Setup.ReportsAreSettled` | aiokafka/coordinator/assignors/sticky/sticky_assignor.py:380-415 | reports that are complete, allowed, without conflict and fair leave nothing to hand out and nothing to move |
| `Setup.OneClaim` | aiokafka/coordinator/assignors/sticky/sticky_assignor.py:280-290 | a partition reported in one generation only has no earlier owner on record |
| `Setup.MembersAlike` | aiokafka/coordinator/assignors/sticky/sticky_assignor.py:226-240 | members with the same subscriptions may all hold what more than one may hold |
| `Setup.OwnerReports` | aiokafka/coordinator/assignors/sticky/sticky_assignor.py:280-296 | a partition has an owner if and only if somebody reports it, and its owner reports it |
| `Setup.FewAreRivals` | aiokafka/coordinator/assignors/sticky/sticky_assignor.py:226-240 | when no three members subscribe to a topic with two partitions the group has few rivals |
| `Setup.Begin` | aiokafka/coordinator/assignors/sticky/sticky_assignor.py:104-142 | from any cluster and reports the executor ready to balance: possible holders are the subscribers, the allowed part of the reports is kept, exactly the unowned partitions wait, earlier holders are those of the second latest claim; the list is dealt from those who report the most if and only if somebody reports something and both dictionaries say the same of all, otherwise it is sorted |
| `Setup.OwnersReport` | aiokafka/coordinator/assignors/sticky/sticky_assignor.py:256-296 | when all name every topic and each partition is reported once, members start with exactly what they report |
| `Setup.SharesKept` | aiokafka/coordinator/assignors/sticky/sticky_assignor.py:323-378 | when all have the same list of topics and each partition is reported once and in one generation, whoever reports no more than its share keeps it |
| `Setup.Assign` | aiokafka/coordinator/assignors/sticky/sticky_assignor.py:755-787 | for any cluster and members: every known partition with a subscriber is held by exactly one member, which subscribes to it, and nothing else is held; fair unless reverted; settled reports come back unchanged; an end that is not reverted, within an explicit number of passes, for members that subscribe alike and whenever no three subscribe to a topic with two partitions; a member that reports no more than its share keeps all of it, when all have the same list of topics and each partition is reported once and in one generation |
| `Setup.OutputIsSettled` | aiokafka/coordinator/assignors/sticky/sticky_assignor.py:680-692 | a covering and fair result, reported back by the same members, is settled, so it is assigned again unchanged |
| `Cycle.OrderIsSorted` | aiokafka/coordinator/assignors/sticky/sticky_assignor.py:312-323 | the list of partitions for this group |
| `Cycle.ReportedIsOwner` | aiokafka/coordinator/assignors/sticky/sticky_assignor.py:256-296 | the owners the reports of these members give |
| `Cycle.PotentialsAre` | aiokafka/coordinator/assignors/sticky/sticky_assignor.py:215-242 | the possible consumers this cluster and these members give |
| `Cycle.StartsHere` | aiokafka/coordinator/assignors/sticky/sticky_assignor.py:144-182 | whatever order the lists are in, the loop starts with these sizes and owners and nothing moved |
| `Cycle.FirstPass` | aiokafka/coordinator/assignors/sticky/sticky_assignor.py:544-599 | every execution of the first pass makes the same six moves |
| `Cycle.LaterPass` | aiokafka/coordinator/assignors/sticky/sticky_assignor.py:544-599 | every execution of a later pass moves a partition and its substitute move brings it back |
| `Cycle.NeverEnds` | aiokafka/coordinator/assignors/sticky/sticky_assignor.py:538-600 | from there the loop has not ended after any number of passes |
| `Cycle.SameEnd` | aiokafka/coordinator/assignors/sticky/sticky_assignor.py:538-600 | whether the loop ends depends on who may hold what and on earlier owners only |
| `Cycle.RebalanceOnThisGroup` | aiokafka/coordinator/assignors/sticky/sticky_assignor.py:755-776 | the assignor run on this cluster and these members is not finished after any number of passes |
| `Cycle.MoveBackWorsens` | aiokafka/coordinator/assignors/sticky/partition_movements.py:79-91 | the substitute from a third consumer raises the score |
| `Departed.EndsWrong` | aiokafka/coordinator/assignors/sticky/sticky_assignor.py:566-582 | for a group with an earlier holder that left the topic, every end of the loop gives it the partition back |
| `Departed.DepartedGetsIt` | aiokafka/coordinator/assignors/sticky/sticky_assignor.py:755-776 | a cluster and reports that lead there; the loop does end, and then a member holds a partition of a topic it does not subscribe to |
| `Reordered.NotAlike` | aiokafka/coordinator/assignors/sticky/sticky_assignor.py:46-57 | the same topics in another order make the lists of partitions differ |
| `Reordered.ShareIsLost` | aiokafka/coordinator/assignors/sticky/sticky_assignor.py:323-378 | a cluster and reports with the same topics named in another order, each partition reported once and in one generation: the assignor ends, and a member with exactly its share has lost a partition |
| `WireTypes.EncodeUnsigned` | aiokafka/protocol/types.py:291-300 | the loop writes the seven-bit groups of the value modulo 2^32 |
| `WireTypes.DecodeUnsigned` | aiokafka/protocol/types.py:276-289 | the loop equals the specified reading of at most five groups, with both errors |
| `WireTypes.UnsignedReadBack` | aiokafka/protocol/types.py:275-300 | every unsigned 32-bit value is read back |
| `WireTypes.RoundTripAt` | aiokafka/protocol/types.py:50-425 | every value of every schema is read back from wherever it stands in a buffer |
| `WireTypes.AllRoundTrip` | aiokafka/protocol/types.py:255-267 | the items of an array are read back in order |
| `WireTypes.EachRoundTrip` | aiokafka/protocol/types.py:200-208 | the fields of a schema are read back in order |
| `WireTypes.RoundTrip` | aiokafka/protocol/types.py:190-208 | decoding an encoded value followed by anything gives the value and leaves the rest |
| `WireTypes.VarInt32RoundTripIff` | aiokafka/protocol/types.py:303-313 | a signed 32-bit varint is read back if and only if it is not negative; a negative one comes back as another value, which is given |
| `WireTypes.NumbersExample` | aiokafka/protocol/types.py:50-300 | the bytes of numbers |
| `WireTypes.LengthsExample` | aiokafka/protocol/types.py:128-174 | the bytes of a text, a byte string and a null |
| `WireTypes.CompactExample` | aiokafka/protocol/types.py:346-411 | the bytes of the compact forms, whose lengths are one higher |

## Left out

- Sticky.Executor.PerformReassignments: at most a given number of passes is made, because the source's loop need not end; what holds on exit is stated for the runs that end. That it ends is proved for members that subscribe alike and when every topic has one partition or two possible consumers; the group of `Cycle` has a topic with two partitions and three consumers. Which of the remaining groups end depends on the whole course of the moves, and a condition that decides it before the call is not given.
- Setup.Assign: reports in which a holder of an earlier generation no longer subscribes (sticky_assignor.py:566-582) are shut out; `Departed` shows what happens on one of them, and a further one can raise KeyError when that member was set aside.
- Sticky.Executor.Improve: whether moves are ever taken back is open. A revert needs a substitute taken from a third consumer; no group with a revert is given, and none is excluded beyond the cases above.
- Sticky.Executor: error branches that only log (sticky_assignor.py:473-476, 521-526, 553-564) are not written out; the preconditions proved at each call exclude them.
- PartitionOrder.SortAll: the library's sort is written as repeated selection.
- Setup.AddMember: the loop over a topic's partitions is written as one map update.
- BatchReader.BatchSplitter: what is cut after a slice that is no batch was handed out.
- Records: texts that UTF-8 cannot encode, and values of the wrong Python type, which raise TypeError.
- Varint.EncodeVarint: values outside int64.
- WireTypes: VarInt64, TaggedFields and Float64; the decoder's cursor is a position passed along; values a type's encoder rejects.
- Crc32c: tables are functions of the byte that indexes them, and the hardware path is not modelled.
- Consumer: skipping a record that is too large to fetch counts as an explicit position change; fetch errors and leadership changes. An error is raised for the partition it occurs in; reads of several partitions at once are not modelled.
- Accumulator.MessageAccumulator.DrainByNodes: the result is keyed by partition with its leader instead of by leader.
- Transactions: abortable and fatal errors, the user's checks in producer.py before a call reaches the manager, timeouts, the initial producer id request and coordinator lookup.
- Round-robin and range assignors: smaller companions of the sticky assignor.
- Legacy record formats, protocol message definitions, group coordinator, connections, clients, metrics and the admin client.
