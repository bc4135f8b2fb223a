/** The partition operations of the gRPC transport (`MilvusGrpcClient`,
    partition part). Each one sends its request, checks the status the server
    returns and throws `MilvusException` unless the code is `Success`. The
    server's reply is the parameter of each operation. */
module MilvusGrpcClientPartition {
  import opened Common

  /** `Grpc.Status`. */
  datatype Status = Status(errorCode: ErrorCode, reason: string)

  /** `Grpc.BoolResponse`. */
  datatype BoolResponse = BoolResponse(status: Status, value: bool)

  /** `Grpc.ShowPartitionsResponse`: four parallel lists, the id list possibly null. */
  datatype ShowPartitionsResponse = ShowPartitionsResponse(
    status: Status,
    partitionIds: Option<seq<Int64>>,
    partitionNames: seq<string>,
    createdUtcTimestamps: seq<UInt64>,
    inMemoryPercentages: Option<seq<Int64>>)

  /** `TimestampUtils.GetTimeFromTimstamp(ts)`, kept symbolic. */
  datatype DateTime = TimeFromTimestamp(ts: Int64)

  datatype MilvusPartition = MilvusPartition(
    partitionId: Int64, partitionName: string, creationTime: DateTime, inMemoryPercentage: Int64)

  /** The `(long)` cast of a `ulong`: values from 2^63 on wrap to negatives. */
  function ToInt64(u: UInt64): (x: Int64)
    ensures u < 0x8000_0000_0000_0000 ==> x == u
    ensures u >= 0x8000_0000_0000_0000 ==> x == u - 0x1_0000_0000_0000_0000
    ensures x % 0x1_0000_0000_0000_0000 == u
  {
    if u < 0x8000_0000_0000_0000 then u else u - 0x1_0000_0000_0000_0000
  }

  /** The check every operation makes on the status it receives. */
  function CheckStatus(s: Status): (o: Outcome)
    ensures o.Pass? <==> s.errorCode == SuccessCode
    ensures o.Fail? ==> o.error == MilvusException(s.errorCode, s.reason)
  {
    if s.errorCode != SuccessCode then Fail(MilvusException(s.errorCode, s.reason)) else Pass
  }

  function CreatePartition(response: Status): (o: Outcome)
    ensures o.Pass? <==> response.errorCode == SuccessCode
    ensures o.Fail? ==> o.error == MilvusException(response.errorCode, response.reason)
  {
    CheckStatus(response)
  }

  function HasPartition(response: BoolResponse): (r: Result<bool>)
    ensures r.Success? <==> response.status.errorCode == SuccessCode
    ensures r.Success? ==> r.value == response.value
    ensures r.Failure? ==> r.error == MilvusException(response.status.errorCode, response.status.reason)
  {
    match CheckStatus(response.status)
    case Fail(e) => Failure(e)
    case Pass => Success(response.value)
  }

  function LoadPartitions(response: Status): (o: Outcome)
    ensures o.Pass? <==> response.errorCode == SuccessCode
    ensures o.Fail? ==> o.error == MilvusException(response.errorCode, response.reason)
  {
    CheckStatus(response)
  }

  function ReleasePartition(response: Status): (o: Outcome)
    ensures o.Pass? <==> response.errorCode == SuccessCode
    ensures o.Fail? ==> o.error == MilvusException(response.errorCode, response.reason)
  {
    CheckStatus(response)
  }

  function DropPartitions(response: Status): (o: Outcome)
    ensures o.Pass? <==> response.errorCode == SuccessCode
    ensures o.Fail? ==> o.error == MilvusException(response.errorCode, response.reason)
  {
    CheckStatus(response)
  }

  /** Whether the percentage list is used at all (`InMemoryPercentages?.Any() == true`). */
  predicate HasPercentages(r: ShowPartitionsResponse)
  {
    r.inMemoryPercentages.Some? && |r.inMemoryPercentages.value| > 0
  }

  /** Every list that row i reads has an entry i. */
  predicate RowReadable(r: ShowPartitionsResponse, i: nat)
    requires r.partitionIds.Some?
  {
    && i < |r.partitionIds.value|
    && i < |r.partitionNames|
    && i < |r.createdUtcTimestamps|
    && (HasPercentages(r) ==> i < |r.inMemoryPercentages.value|)
  }

  /** Partition i: entry i of each list, -1 when there are no percentages. */
  function PartitionAt(r: ShowPartitionsResponse, i: nat): (p: MilvusPartition)
    requires r.partitionIds.Some? && RowReadable(r, i)
    ensures p.partitionId == r.partitionIds.value[i] && p.partitionName == r.partitionNames[i]
    ensures p.creationTime == TimeFromTimestamp(ToInt64(r.createdUtcTimestamps[i]))
    ensures !HasPercentages(r) ==> p.inMemoryPercentage == -1
    ensures HasPercentages(r) ==> p.inMemoryPercentage == r.inMemoryPercentages.value[i]
  {
    MilvusPartition(
      r.partitionIds.value[i],
      r.partitionNames[i],
      TimeFromTimestamp(ToInt64(r.createdUtcTimestamps[i])),
      if HasPercentages(r) then r.inMemoryPercentages.value[i] else -1)
  }

  /** Every row of the id list is readable. */
  predicate AllRowsReadable(r: ShowPartitionsResponse)
    requires r.partitionIds.Some?
  {
    forall i: nat :: i < |r.partitionIds.value| ==> RowReadable(r, i)
  }

  /** The zip of the four lists by index, drained into a list: nothing for a
      null id list; one partition per id otherwise; an index out of range as
      soon as a name, a timestamp or (when there are any) a percentage is missing. */
  method ToPartitions(response: ShowPartitionsResponse) returns (r: Result<seq<MilvusPartition>>)
    ensures response.partitionIds.None? ==> r == Success([])
    ensures response.partitionIds.Some? ==> (r.Success? <==> AllRowsReadable(response))
    ensures r.Failure? ==> r.error == ArgumentOutOfRange
    ensures r.Success? && response.partitionIds.Some? ==>
      && |r.value| == |response.partitionIds.value|
      && forall i :: 0 <= i < |r.value| ==> RowReadable(response, i) && r.value[i] == PartitionAt(response, i)
  {
    if response.partitionIds.None? {
      return Success([]);
    }
    var ids := response.partitionIds.value;
    var partitions: seq<MilvusPartition> := [];
    var i := 0;
    while i < |ids|
      invariant 0 <= i <= |ids|
      invariant forall k: nat :: k < i ==> RowReadable(response, k)
      invariant |partitions| == i
      invariant forall k :: 0 <= k < i ==> partitions[k] == PartitionAt(response, k)
    {
      if i >= |response.partitionNames| || i >= |response.createdUtcTimestamps|
        || (HasPercentages(response) && i >= |response.inMemoryPercentages.value|)
      {
        assert !RowReadable(response, i);
        return Failure(ArgumentOutOfRange);
      }
      var percentage: Int64 := if HasPercentages(response) then response.inMemoryPercentages.value[i] else -1;
      partitions := partitions + [MilvusPartition(
        ids[i], response.partitionNames[i],
        TimeFromTimestamp(ToInt64(response.createdUtcTimestamps[i])), percentage)];
      i := i + 1;
    }
    return Success(partitions);
  }

  /** The status first; on success, the partitions in the order `ToPartitions` yields them. */
  method ShowPartitions(response: ShowPartitionsResponse) returns (r: Result<seq<MilvusPartition>>)
    ensures response.status.errorCode != SuccessCode ==>
      r == Failure(MilvusException(response.status.errorCode, response.status.reason))
    ensures response.status.errorCode == SuccessCode && response.partitionIds.None? ==> r == Success([])
    ensures response.status.errorCode == SuccessCode && response.partitionIds.Some? ==>
      (r.Success? <==> AllRowsReadable(response))
    ensures r.Success? && response.partitionIds.Some? ==>
      && |r.value| == |response.partitionIds.value|
      && forall i :: 0 <= i < |r.value| ==> RowReadable(response, i) && r.value[i] == PartitionAt(response, i)
  {
    var status := CheckStatus(response.status);
    if status.Fail? {
      return Failure(status.error);
    }
    r := ToPartitions(response);
  }

  /** Without percentages every partition reports -1. */
  lemma NoPercentagesMeansMinusOne(r: ShowPartitionsResponse, i: nat)
    requires r.partitionIds.Some? && RowReadable(r, i)
    requires r.inMemoryPercentages.None? || r.inMemoryPercentages.value == []
    ensures PartitionAt(r, i).inMemoryPercentage == -1
  {
  }

  /** A reply whose four lists are as long as the id list is always readable. */
  lemma EqualLengthsReadable(r: ShowPartitionsResponse)
    requires r.partitionIds.Some?
    requires |r.partitionNames| == |r.createdUtcTimestamps| == |r.partitionIds.value|
    requires r.inMemoryPercentages.None? || |r.inMemoryPercentages.value| in {0, |r.partitionIds.value|}
    ensures AllRowsReadable(r)
  {
  }
}
