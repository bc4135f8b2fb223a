/** `ReleaseCollectionRequest`: the request that releases a loaded collection. */
module ReleaseCollectionRequest {
  import opened Common
  import opened Text
  import opened HttpRequest
  import ApiVersion

  /** The request object; a name may be null. */
  datatype Request = Request(collectionName: Option<string>, dbName: Option<string>)

  /** The gRPC message `Grpc.ReleaseCollectionRequest`. */
  datatype GrpcMessage = GrpcMessage(collectionName: string, dbName: string)

  const RestPath := ApiVersion.V1 + "/collection/load"

  function Create(collectionName: Option<string>, dbName: Option<string>): (r: Request)
    ensures r.collectionName == collectionName && r.dbName == dbName
  {
    Request(collectionName, dbName)
  }

  /** The collection name is checked before the database name. */
  function Validate(r: Request): (o: Outcome)
    ensures o.Fail? <==> IsNullOrWhiteSpace(r.collectionName) || IsNullOrWhiteSpace(r.dbName)
    ensures o.Fail? ==> o.error.ArgumentException?
  {
    if IsNullOrWhiteSpace(r.collectionName) then Fail(ArgumentException("CollectionName"))
    else if IsNullOrWhiteSpace(r.dbName) then Fail(ArgumentException("DbName"))
    else Pass
  }

  function BuildGrpc(r: Request): (m: Result<GrpcMessage>)
    ensures m.Failure? <==> Validate(r).Fail?
    ensures m.Failure? ==> m.error == Validate(r).error
    ensures m.Success? ==> r.collectionName == Some(m.value.collectionName) && r.dbName == Some(m.value.dbName)
  {
    match Validate(r)
    case Fail(e) => Failure(e)
    case Pass => Success(GrpcMessage(r.collectionName.value, r.dbName.value))
  }

  /** Releasing is a DELETE on the collection's load resource. */
  function BuildRest(r: Request): (m: Result<HttpRequestMessage<Request>>)
    ensures m.Failure? <==> Validate(r).Fail?
    ensures m.Failure? ==> m.error == Validate(r).error
    ensures m.Success? ==> m.value.verb == Delete && m.value.url == RestPath && PayloadOf(m.value.content) == Object(r)
  {
    match Validate(r)
    case Fail(e) => Failure(e)
    case Pass => Success(CreateDeleteRequest(RestPath, Object(r)))
  }

  /** Neither form is built for a request that fails validation. */
  lemma BuildersAgree(r: Request)
    ensures BuildGrpc(r).Failure? <==> BuildRest(r).Failure?
    ensures BuildGrpc(r).Failure? ==> BuildGrpc(r).error == BuildRest(r).error
  {
  }

  lemma CreateThenBuild(collectionName: string, dbName: string)
    requires !IsNullOrWhiteSpace(Some(collectionName)) && !IsNullOrWhiteSpace(Some(dbName))
    ensures BuildGrpc(Create(Some(collectionName), Some(dbName))) == Success(GrpcMessage(collectionName, dbName))
  {
  }
}
