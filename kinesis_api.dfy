/**
 * The part of the Amazon Kinesis Data Streams API the connector uses, with
 * the service itself as an oracle: each operation is a total function from
 * its request to either a response or the error the SDK call returned.
 * Nothing about the service's behaviour is assumed beyond that.
 */
module KinesisApi {
  import opened Results

  /** An error returned by the AWS SDK, carried as its message. */
  type AwsError = string

  /** An opaque record payload (`[]byte`). */
  type Payload = seq<bv8>

  /**
   * A shard as DescribeStream describes it. Only `shardId` is read by the
   * connector; the other attributes are carried along untouched.
   */
  datatype Shard = Shard(
    shardId: string,
    parentShardId: string,
    startingHashKey: string,
    endingHashKey: string,
    startingSequenceNumber: string)

  /** A data record as GetRecords returns it. */
  datatype Record = Record(data: Payload, sequenceNumber: string, partitionKey: string)

  /** The iterator types of GetShardIterator that the connector can ask for. */
  const TrimHorizon: string := "TRIM_HORIZON"
  const AfterSequenceNumber: string := "AFTER_SEQUENCE_NUMBER"

  datatype DescribeStreamInput = DescribeStreamInput(streamName: string)

  datatype GetShardIteratorInput = GetShardIteratorInput(
    shardId: string,
    streamName: string,
    shardIteratorType: string,
    startingSequenceNumber: Option<string>)

  /** A Kinesis client: the three remote operations the connector calls. */
  datatype Client = Client(
    describeStream: DescribeStreamInput -> Result<seq<Shard>, AwsError>,
    getShardIterator: GetShardIteratorInput -> Result<string, AwsError>,
    getRecords: string -> Result<seq<Record>, AwsError>)

  /** Static credentials handed to the SDK configuration. */
  datatype StaticCredentials = StaticCredentials(
    accessKeyId: string,
    secretAccessKey: string,
    sessionToken: string)

  /** The SDK configuration a session is created from. */
  datatype AwsConfig = AwsConfig(region: string, credentials: Option<StaticCredentials>)
}
