/**
 * The AWS Kinesis source connector: `Load` builds the connector from its
 * decoded configuration and the stream's sorted shard list; `Fetch` pulls
 * one batch of records from a shard, resuming after a cursor;
 * `NumberOfWorkers` and `Close` complete the source interface.
 */
module AwsKinesisSource {
  import opened Results
  import opened KinesisApi
  import opened StringOrder
  import opened ShardCatalog

  /** The configuration fields decoded from the connector's JSON. */
  datatype Config = Config(
    streamName: string,
    region: string,
    awsAccessKeyId: string,
    awsSecretAccessKey: string,
    awsSessionToken: string)

  /** A loaded connector: its configuration, sorted shard list and client. */
  datatype AwsKinesis = AwsKinesis(config: Config, shards: seq<Shard>, service: Client)

  /** One batch handed to the host: the payloads and the cursor to resume after. */
  datatype Records = Records(data: seq<Payload>, lastSequence: string)

  datatype LoadError =
    /** "missing required fields for awskinesis source", naming the empty fields */
    | MissingRequiredFields(fields: seq<string>)
    /** "unable to create awskinesis service session", with the SDK's error */
    | SessionFailed(cause: AwsError)
    /** DescribeStream's error, returned as it is */
    | DescribeFailed(cause: AwsError)

  /** The `validate:"required"` fields that are empty, in declaration order. */
  function MissingFields(c: Config): (fields: seq<string>)
    ensures "StreamName" in fields <==> c.streamName == ""
    ensures "Region" in fields <==> c.region == ""
    ensures fields == [] <==> c.streamName != "" && c.region != ""
  {
    (if c.streamName == "" then ["StreamName"] else [])
    + (if c.region == "" then ["Region"] else [])
  }

  /**
   * The SDK configuration: the region, and static credentials only when
   * both the access key and the secret are given.
   */
  function ClientConfig(c: Config): (conf: AwsConfig)
    ensures conf.region == c.region
    ensures conf.credentials.Some? <==> c.awsAccessKeyId != "" && c.awsSecretAccessKey != ""
    ensures conf.credentials.Some? ==>
      conf.credentials.value == StaticCredentials(c.awsAccessKeyId, c.awsSecretAccessKey, c.awsSessionToken)
  {
    AwsConfig(
      c.region,
      if c.awsAccessKeyId != "" && c.awsSecretAccessKey != ""
      then Some(StaticCredentials(c.awsAccessKeyId, c.awsSecretAccessKey, c.awsSessionToken))
      else None)
  }

  /**
   * Loads the connector. `newSession` stands for creating the AWS session
   * from the SDK configuration and a Kinesis client from it; the client's
   * DescribeStream lists the stream's shards.
   */
  method Load(c: Config, newSession: AwsConfig -> Result<Client, AwsError>)
    returns (src: Option<AwsKinesis>, err: Option<LoadError>)
    // an incomplete configuration fails before any session or remote call
    ensures c.streamName == "" || c.region == "" ==>
      src.None? && err == Some(MissingRequiredFields(MissingFields(c)))
    ensures c.streamName != "" && c.region != "" && newSession(ClientConfig(c)).Err? ==>
      src.None? && err == Some(SessionFailed(newSession(ClientConfig(c)).error))
    // with a client, a source is always returned; its shards are the
    // described ones sorted by id, or none when DescribeStream failed
    ensures c.streamName != "" && c.region != "" && newSession(ClientConfig(c)).Ok? ==>
      var client := newSession(ClientConfig(c)).value;
      var described := client.describeStream(DescribeStreamInput(c.streamName));
      && src.Some?
      && src.value.config == c
      && src.value.service == client
      && (described.Err? ==>
            err == Some(DescribeFailed(described.error)) && src.value.shards == []
            && NumberOfWorkers(src.value) == 0)
      && (described.Ok? ==>
            && err.None?
            && SortedById(src.value.shards)
            && multiset(src.value.shards) == multiset(described.value)
            && NumberOfWorkers(src.value) == |described.value|)
  {
    var missing := MissingFields(c);
    if missing != [] {
      return None, Some(MissingRequiredFields(missing));
    }

    var conf := AwsConfig(c.region, None);
    if c.awsAccessKeyId != "" && c.awsSecretAccessKey != "" {
      conf := conf.(credentials := Some(StaticCredentials(c.awsAccessKeyId, c.awsSecretAccessKey, c.awsSessionToken)));
    }

    var session := newSession(conf);
    if session.Err? {
      return None, Some(SessionFailed(session.error));
    }
    var s := AwsKinesis(c, [], session.value);

    var stream := s.service.describeStream(DescribeStreamInput(c.streamName));
    if stream.Err? {
      return Some(s), Some(DescribeFailed(stream.error));
    }
    var described := stream.value;
    var a := new Shard[|described|](i requires 0 <= i < |described| => described[i]);
    assert a[..] == described;
    SortShards(a);
    s := s.(shards := a[..]);
    return Some(s), None;
  }

  /**
   * The GetShardIterator request for a shard: from the oldest retained
   * record when there is no cursor, else just after the cursor's record.
   */
  function IteratorInput(streamName: string, shardId: string, lastSeq: string): (p: GetShardIteratorInput)
    ensures p.shardId == shardId && p.streamName == streamName
    ensures p.shardIteratorType == TrimHorizon <==> lastSeq == ""
    ensures lastSeq == "" ==> p.startingSequenceNumber == None
    ensures lastSeq != "" ==>
      p.shardIteratorType == AfterSequenceNumber && p.startingSequenceNumber == Some(lastSeq)
  {
    if lastSeq == "" then GetShardIteratorInput(shardId, streamName, TrimHorizon, None)
    else GetShardIteratorInput(shardId, streamName, AfterSequenceNumber, Some(lastSeq))
  }

  /**
   * `batch` holds one payload per record in received order, and the cursor
   * of the last record, or `lastSeq` when there are none.
   */
  ghost predicate IsBatchOf(batch: Records, lastSeq: string, records: seq<Record>)
  {
    && |batch.data| == |records|
    && (forall i :: 0 <= i < |records| ==> batch.data[i] == records[i].data)
    && batch.lastSequence == (if records == [] then lastSeq else records[|records| - 1].sequenceNumber)
  }

  /** Folds the records GetRecords returned into a batch. */
  method AssembleBatch(lastSeq: string, records: seq<Record>) returns (ret: Records)
    ensures IsBatchOf(ret, lastSeq, records)
  {
    ret := Records([], lastSeq);
    for k := 0 to |records|
      invariant IsBatchOf(ret, lastSeq, records[..k])
    {
      ret := ret.(data := ret.data + [records[k].data], lastSequence := records[k].sequenceNumber);
    }
    assert records[..|records|] == records;
  }

  /**
   * Resuming is seamless: a batch of `first` followed by a batch of `second`
   * started from the first batch's cursor carries the same payloads and
   * ends at the same cursor as one batch of `first + second`.
   */
  lemma BatchesCompose(b1: Records, b2: Records, lastSeq: string, first: seq<Record>, second: seq<Record>)
    requires IsBatchOf(b1, lastSeq, first)
    requires IsBatchOf(b2, b1.lastSequence, second)
    ensures IsBatchOf(Records(b1.data + b2.data, b2.lastSequence), lastSeq, first + second)
  {
  }


  /**
   * Fetches the next batch of shard `shardID`, resuming after `lastSeq`.
   * Either remote call failing yields its error and no records at all.
   */
  method Fetch(a: AwsKinesis, shardID: nat, lastSeq: string) returns (r: Result<Records, AwsError>)
    requires shardID < |a.shards|
    ensures
      var iter := a.service.getShardIterator(IteratorInput(a.config.streamName, a.shards[shardID].shardId, lastSeq));
      && (iter.Err? ==> r == Err(iter.error))
      && (iter.Ok? ==>
            var got := a.service.getRecords(iter.value);
            && (got.Err? ==> r == Err(got.error))
            && (got.Ok? ==> r.Ok? && IsBatchOf(r.value, lastSeq, got.value)))
  {
    var params := GetShardIteratorInput(a.shards[shardID].shardId, a.config.streamName, TrimHorizon, None);
    if |lastSeq| != 0 {
      params := params.(shardIteratorType := AfterSequenceNumber, startingSequenceNumber := Some(lastSeq));
    }

    var iter := a.service.getShardIterator(params);
    if iter.Err? {
      return Err(iter.error);
    }

    var records := a.service.getRecords(iter.value);
    if records.Err? {
      return Err(records.error);
    }

    var ret := AssembleBatch(lastSeq, records.value);
    return Ok(ret);
  }

  /** The number of workers the host runs: one per shard. */
  function NumberOfWorkers(a: AwsKinesis): (n: nat)
    ensures n == |a.shards|
  {
    |a.shards|
  }

  /** Releasing a shard needs nothing: no iterator is held between fetches. */
  function Close(a: AwsKinesis, shardID: nat): (err: Option<AwsError>)
    ensures err.None?
  {
    None
  }

  /** The only sorted arrangement of two shards whose ids differ. */
  lemma TwoShardsSorted(s1: Shard, s2: Shard, catalog: seq<Shard>)
    requires Less(s1.shardId, s2.shardId)
    requires SortedById(catalog) && multiset(catalog) == multiset([s2, s1])
    ensures catalog == [s1, s2]
  {
    LessAsymmetric(s1.shardId, s2.shardId);
    LessIrreflexive(s1.shardId);
    assert multiset([s1, s2]) == multiset([s2, s1]);
    SortedArrangementUnique([s1, s2], catalog);
  }

  // A stream "orders" whose DescribeStream lists (shard-0002, shard-0001),
  // and whose shard-0001 holds two records.
  const OrdersShard1 := Shard("shard-0001", "", "", "", "")
  const OrdersShard2 := Shard("shard-0002", "", "", "", "")
  const OrdersRecord1 := Record([1], "49001", "order-1")
  const OrdersRecord2 := Record([2], "49002", "order-2")

  function OrdersClient(): Client
  {
    Client(
      (d: DescribeStreamInput) => Ok([OrdersShard2, OrdersShard1]),
      (p: GetShardIteratorInput) => if p.startingSequenceNumber.None? then Ok("from-oldest") else Ok("after-cursor"),
      (it: string) => if it == "from-oldest" then Ok([OrdersRecord1, OrdersRecord2]) else Ok([]))
  }

  lemma OrdersIdsAscend()
    ensures Less(OrdersShard1.shardId, OrdersShard2.shardId)
  {
    assert OrdersShard1.shardId == "shard-000" + "1" && OrdersShard2.shardId == "shard-000" + "2";
    LessAfterCommonPrefix("shard-000", "1", "2");
  }

  /** Loading "orders" yields two workers, with shard-0001 at index 0. */
  method OrdersCatalogScenario()
  {
    var client := OrdersClient();
    assert client.describeStream(DescribeStreamInput("orders")) == Ok([OrdersShard2, OrdersShard1]);
    var src, err := Load(Config("orders", "us-east-1", "", "", ""), conf => Ok(client));
    assert src.Some? && err.None?;
    OrdersIdsAscend();
    TwoShardsSorted(OrdersShard1, OrdersShard2, src.value.shards);
    assert NumberOfWorkers(src.value) == 2 && src.value.shards[0] == OrdersShard1;
  }

  /**
   * Fetching shard 0 without a cursor returns both records and the second
   * one's cursor; fetching again from that cursor returns an empty batch
   * with the cursor unchanged.
   */
  method OrdersFetchScenario()
  {
    var source := AwsKinesis(Config("orders", "us-east-1", "", "", ""), [OrdersShard1, OrdersShard2], OrdersClient());
    var first := Fetch(source, 0, "");
    assert first.Ok? && IsBatchOf(first.value, "", [OrdersRecord1, OrdersRecord2]);
    assert first.value.data == [[1], [2]] && first.value.lastSequence == "49002";

    var again := Fetch(source, 0, "49002");
    assert again.Ok? && again.value.data == [] && again.value.lastSequence == "49002";
  }
}
