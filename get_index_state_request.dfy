/** `GetIndexStateRequest`: the request for the build state of a field's index. */
module GetIndexStateRequest {
  import opened Common
  import opened Text
  import opened HttpRequest
  import ApiVersion

  /** The request object; a name may be null. */
  datatype Request = Request(collectionName: Option<string>, fieldName: Option<string>, dbName: Option<string>)

  /** The gRPC message `Grpc.GetIndexStateRequest`. */
  datatype GrpcMessage = GrpcMessage(collectionName: string, fieldName: string, dbName: string)

  const RestPath := ApiVersion.V1 + "/state"

  function Create(collectionName: Option<string>, fieldName: Option<string>, dbName: Option<string>): (r: Request)
    ensures r.collectionName == collectionName && r.fieldName == fieldName && r.dbName == dbName
  {
    Request(collectionName, fieldName, dbName)
  }

  /** Collection, field, then database name; the first null or blank one throws. */
  function Validate(r: Request): (o: Outcome)
    ensures o.Fail? <==>
      IsNullOrWhiteSpace(r.collectionName) || IsNullOrWhiteSpace(r.fieldName) || IsNullOrWhiteSpace(r.dbName)
    ensures o.Fail? ==> o.error.ArgumentException?
  {
    if IsNullOrWhiteSpace(r.collectionName) then Fail(ArgumentException("CollectionName"))
    else if IsNullOrWhiteSpace(r.fieldName) then Fail(ArgumentException("FieldName"))
    else if IsNullOrWhiteSpace(r.dbName) then Fail(ArgumentException("DbName"))
    else Pass
  }

  function BuildGrpc(r: Request): (m: Result<GrpcMessage>)
    ensures m.Failure? <==> Validate(r).Fail?
    ensures m.Failure? ==> m.error == Validate(r).error
    ensures m.Success? ==>
      && r.collectionName == Some(m.value.collectionName)
      && r.fieldName == Some(m.value.fieldName)
      && r.dbName == Some(m.value.dbName)
  {
    match Validate(r)
    case Fail(e) => Failure(e)
    case Pass => Success(GrpcMessage(r.collectionName.value, r.fieldName.value, r.dbName.value))
  }

  function BuildRest(r: Request): (m: Result<HttpRequestMessage<Request>>)
    ensures m.Failure? <==> Validate(r).Fail?
    ensures m.Failure? ==> m.error == Validate(r).error
    ensures m.Success? ==> m.value.verb == Get && m.value.url == RestPath && PayloadOf(m.value.content) == Object(r)
  {
    match Validate(r)
    case Fail(e) => Failure(e)
    case Pass => Success(CreateGetRequest(RestPath, Object(r)))
  }

  lemma BuildersAgree(r: Request)
    ensures BuildGrpc(r).Failure? <==> BuildRest(r).Failure?
    ensures BuildGrpc(r).Failure? ==> BuildGrpc(r).error == BuildRest(r).error
  {
  }

  lemma CreateThenBuild(collectionName: string, fieldName: string, dbName: string)
    requires !IsNullOrWhiteSpace(Some(collectionName))
    requires !IsNullOrWhiteSpace(Some(fieldName))
    requires !IsNullOrWhiteSpace(Some(dbName))
    ensures BuildGrpc(Create(Some(collectionName), Some(fieldName), Some(dbName)))
         == Success(GrpcMessage(collectionName, fieldName, dbName))
  {
  }
}
