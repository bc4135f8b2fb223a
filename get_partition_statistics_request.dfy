/** `GetPartitionStatisticsRequest`: the request for a partition's statistics,
    validated and then rendered as a gRPC message or as a REST request. */
module GetPartitionStatisticsRequest {
  import opened Common
  import opened Text
  import opened HttpRequest
  import ApiVersion

  /** The request object; a name may be null. */
  datatype Request = Request(collectionName: Option<string>, partitionName: Option<string>, dbName: Option<string>)

  /** The gRPC message `Grpc.GetPartitionStatisticsRequest`. */
  datatype GrpcMessage = GrpcMessage(collectionName: string, partitionName: string, dbName: string)

  const RestPath := ApiVersion.V1 + "/partition/statistics"

  function Create(collectionName: Option<string>, partitionName: Option<string>, dbName: Option<string>): (r: Request)
    ensures r.collectionName == collectionName && r.partitionName == partitionName && r.dbName == dbName
  {
    Request(collectionName, partitionName, dbName)
  }

  /** The three names are checked in order; the first null or blank one throws. */
  function Validate(r: Request): (o: Outcome)
    ensures o.Fail? <==>
      IsNullOrWhiteSpace(r.collectionName) || IsNullOrWhiteSpace(r.partitionName) || IsNullOrWhiteSpace(r.dbName)
    ensures o.Fail? ==> o.error.ArgumentException?
  {
    if IsNullOrWhiteSpace(r.collectionName) then Fail(ArgumentException("CollectionName"))
    else if IsNullOrWhiteSpace(r.partitionName) then Fail(ArgumentException("PartitionName"))
    else if IsNullOrWhiteSpace(r.dbName) then Fail(ArgumentException("DbName"))
    else Pass
  }

  function BuildGrpc(r: Request): (m: Result<GrpcMessage>)
    ensures m.Failure? <==> Validate(r).Fail?
    ensures m.Failure? ==> m.error == Validate(r).error
    ensures m.Success? ==>
      && r.collectionName == Some(m.value.collectionName)
      && r.partitionName == Some(m.value.partitionName)
      && r.dbName == Some(m.value.dbName)
  {
    match Validate(r)
    case Fail(e) => Failure(e)
    case Pass => Success(GrpcMessage(r.collectionName.value, r.partitionName.value, r.dbName.value))
  }

  function BuildRest(r: Request): (m: Result<HttpRequestMessage<Request>>)
    ensures m.Failure? <==> Validate(r).Fail?
    ensures m.Failure? ==> m.error == Validate(r).error
    ensures m.Success? ==> m.value.verb == Get && m.value.url == RestPath && PayloadOf(m.value.content) == Object(r)
  {
    match Validate(r)
    case Fail(e) => Failure(e)
    case Pass => Success(CreateGetRequest(RestPath, Object(r)))
  }

  /** Both forms share one validation: they fail on the same requests, with the same exception. */
  lemma BuildersAgree(r: Request)
    ensures BuildGrpc(r).Failure? <==> BuildRest(r).Failure?
    ensures BuildGrpc(r).Failure? ==> BuildGrpc(r).error == BuildRest(r).error
  {
  }

  /** A request made by `Create` from three non-blank names builds, and its
      message carries those names. */
  lemma CreateThenBuild(collectionName: string, partitionName: string, dbName: string)
    requires !IsNullOrWhiteSpace(Some(collectionName))
    requires !IsNullOrWhiteSpace(Some(partitionName))
    requires !IsNullOrWhiteSpace(Some(dbName))
    ensures BuildGrpc(Create(Some(collectionName), Some(partitionName), Some(dbName)))
         == Success(GrpcMessage(collectionName, partitionName, dbName))
  {
  }
}
