# AWS Kinesis source connector — a verified model

This project models the AWS Kinesis source of the event-gateway connector
(`sources/awskinesis/awskinesis.go`). The host framework runs one worker per
shard and calls the source through three operations:

- **Load** checks the decoded configuration and builds the SDK configuration,
  with static credentials only when both the key and the secret are given.
  It then creates a Kinesis client, asks DescribeStream for the stream's
  shards and sorts them by ascending ShardId. After that, shard index `i`
  names the same shard on every load.
- **Fetch(shardID, lastSeq)** asks GetShardIterator for a position. That is
  `TRIM_HORIZON` when there is no cursor, and `AFTER_SEQUENCE_NUMBER` with the
  cursor when there is one. It then pulls one batch with GetRecords and folds
  the records into the payload list. The cursor it returns is the last
  record's sequence number, or the input cursor when no records came back.
- **NumberOfWorkers** is the number of shards. **Close** does nothing and
  always succeeds.

The Kinesis service is an oracle. A `Client` value holds the three remote
operations (DescribeStream, GetShardIterator, GetRecords) as total functions
that return a response or an error. Session creation is a function parameter
of `Load`. Each contract is stated relative to whatever these oracles return.

Modules:

- `Results`: the Option and Result types.
- `StringOrder`: Go's `<` on strings, proved to be a strict total order.
- `KinesisApi`: the API's request and response shapes, the iterator-type
  constants and the client oracle.
- `ShardCatalog`: the in-place shard sort, and uniqueness of the sorted
  arrangement.
- `AwsKinesisSource`: the connector itself. It ends with a worked example of
  a stream `orders`, split into `OrdersCatalogScenario` and
  `OrdersFetchScenario`.

Go's `<` on strings compares UTF-8 bytes. The model compares sequences of
Unicode scalar values element by element. UTF-8 preserves code-point order,
so both give the same result.

The model follows the code on three points where one might expect otherwise:

- When DescribeStream fails, `Load` returns the error *and* a source with the
  client set and no shards, as the code does. Returning a half-built source
  with the error is arguably a defect: a caller could use a source with no
  shards. In the model, that source has zero workers.
- An out-of-range `shardID` makes the Go code panic when it indexes the shard
  slice. It is not an "invalid index" error. The model states it as the
  precondition `shardID < |shards|`.
- The required-field check happens inside `Load`, before any session is
  created or remote call made. It is not left to an outside validator.

## Model

| member | source | states |
|---|---|---|
| StringOrder.Less | sources/awskinesis/awskinesis.go:75 | Go's `<` on two ShardIds: a proper prefix is less, and a string is never less than one of its own prefixes |
| StringOrder.LessAtFirstDifference | sources/awskinesis/awskinesis.go:75 | past a common prefix, the first differing character decides the comparison |
| StringOrder.LessIrreflexive | sources/awskinesis/awskinesis.go:74-76 | no ShardId is less than itself under the comparison the sort uses |
| StringOrder.LessAsymmetric | sources/awskinesis/awskinesis.go:74-76 | two ShardIds are never less than each other both ways |
| StringOrder.LessTransitive | sources/awskinesis/awskinesis.go:74-76 | the ShardId comparison is transitive, so the sort's less-function is a strict weak order |
| StringOrder.LessTotal | sources/awskinesis/awskinesis.go:74-76 | any two different ShardIds are ordered one way or the other |
| StringOrder.LessAfterCommonPrefix | sources/awskinesis/awskinesis.go:75 | a shared prefix (such as `shard-000`) does not change how two ShardIds compare |
| ShardCatalog.SortShards | sources/awskinesis/awskinesis.go:74-76 | sorting in place leaves the shards in ascending ShardId order and is a permutation of the described shards |
| ShardCatalog.InsertShard | sources/awskinesis/awskinesis.go:74-76 | one step of the in-place sort: moving a shard into an ascending prefix extends the prefix by one, keeping the same shards and leaving everything after it untouched |
| ShardCatalog.SortedDistinctIsStrict | sources/awskinesis/awskinesis.go:74-77 | with distinct ShardIds, the sorted catalog is strictly ascending |
| ShardCatalog.DistinctIdsPreserved | sources/awskinesis/awskinesis.go:74-77 | reordering the described shards keeps their ids distinct |
| ShardCatalog.CatalogStrictlyAscending | sources/awskinesis/awskinesis.go:74-77 | when DescribeStream lists distinct ids, the sorted catalog that `Load` stores ascends strictly |
| ShardCatalog.SortedArrangementUnique | sources/awskinesis/awskinesis.go:74-77 | any two sorted arrangements of the same shards with distinct ids are equal, so every index names the same shard on each load, whatever order DescribeStream lists them in |
| AwsKinesisSource.MissingFields | sources/awskinesis/awskinesis.go:20-21 | `StreamName` and `Region` are each reported missing exactly when empty; none is reported exactly when both are set |
| AwsKinesisSource.ClientConfig | sources/awskinesis/awskinesis.go:48-57 | the SDK configuration carries the region; it carries static credentials (key, secret, token) if and only if the key and the secret are both non-empty |
| AwsKinesisSource.Load | sources/awskinesis/awskinesis.go:37-80 | an empty StreamName or Region fails with no source, whatever the service would do; a session failure yields no source; a DescribeStream failure yields its error and a source with no shards (zero workers); on success the shards are the described ones, sorted by ShardId and permuted only, and NumberOfWorkers is their count |
| AwsKinesisSource.IteratorInput | sources/awskinesis/awskinesis.go:86-95 | the request targets the given shard and stream; it is TRIM_HORIZON with no starting sequence if and only if the cursor is empty, otherwise AFTER_SEQUENCE_NUMBER starting at the cursor |
| AwsKinesisSource.AssembleBatch | sources/awskinesis/awskinesis.go:85-113 | the batch has one payload per record, in received order, and its cursor is the last record's sequence number, or the input cursor when there are no records |
| AwsKinesisSource.BatchesCompose | sources/awskinesis/awskinesis.go:85-113 | two batches, the second started from the first's cursor, give the same payloads and end cursor as one batch of all the records |
| AwsKinesisSource.Fetch | sources/awskinesis/awskinesis.go:84-116 | for an index below the shard count: asks GetShardIterator with IteratorInput for that shard; either call failing returns exactly that error with no records; otherwise returns the assembled batch of what GetRecords returned |
| AwsKinesisSource.NumberOfWorkers | sources/awskinesis/awskinesis.go:119-121 | one worker per catalogued shard, so the worker indices are exactly the shard indices `Fetch` accepts |
| AwsKinesisSource.Close | sources/awskinesis/awskinesis.go:123-126 | closing any shard index returns no error |

## Left out

- JSON decoding of the configuration: `Load` takes the decoded `Config` record. Decoding is a library call.
- The validator library: only its effect is modelled, a non-empty check on the two `required` fields. Its message text is reduced to the list of missing field names.
- Error message texts: the wrapped messages of `Load` are error variants (`MissingRequiredFields`, `SessionFailed`, `DescribeFailed`), not formatted strings.
- AWS session and client construction: this is the `newSession` parameter of `Load`, which returns a client or an error.
- All network I/O: the three remote operations are oracles.
- `context.Context` cancellation and deadlines: they act only inside the SDK calls.
- The `init` registration with the host framework: it is a global side effect into a library that is not part of this model.
- The host's per-shard workers: the connector holds no shared mutable state, so there is nothing concurrent to model.
- Nil pointers in SDK responses (`ShardId`, `SequenceNumber`): the model's shards and records always carry these strings.
- `sort.Slice`'s algorithm (pattern-defeating quicksort, not stable): `SortShards` is an insertion sort with the same contract, sorted and a permutation. With duplicate ShardIds, the order of equal shards is unspecified in both.
- Go's `uint` for shard indices and the worker count: these are `nat`. No wrap-around can happen, because a slice length always fits.
- Cursor monotonicity across calls, and "trim horizon starts at the oldest retained record": these are promises of the remote service about what GetRecords returns. They are not code in the connector.
