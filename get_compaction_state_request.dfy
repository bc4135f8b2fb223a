/** `GetCompactionStateRequest`: the request for the state of one compaction. */
module GetCompactionStateRequest {
  import opened Common
  import opened HttpRequest
  import ApiVersion

  datatype Request = Request(compactionId: Int64)

  /** The gRPC message `Grpc.GetCompactionStateRequest`. */
  datatype GrpcMessage = GrpcMessage(compactionID: Int64)

  const RestPath := ApiVersion.V1 + "/compaction/state"
  const InvalidIdMessage := "Invalid collection id"

  function Create(compactionId: Int64): (r: Request)
    ensures r.compactionId == compactionId
  {
    Request(compactionId)
  }

  function Validate(r: Request): (o: Outcome)
    ensures o.Fail? <==> r.compactionId <= 0
    ensures o.Fail? ==> o.error == ArgumentException(InvalidIdMessage)
  {
    if r.compactionId > 0 then Pass else Fail(ArgumentException(InvalidIdMessage))
  }

  function BuildGrpc(r: Request): (m: Result<GrpcMessage>)
    ensures m.Failure? <==> r.compactionId <= 0
    ensures m.Failure? ==> m.error == Validate(r).error
    ensures m.Success? ==> m.value.compactionID == r.compactionId
  {
    match Validate(r)
    case Fail(e) => Failure(e)
    case Pass => Success(GrpcMessage(r.compactionId))
  }

  /** A GET without payload: the id is not sent, and the request has no content. */
  function BuildRest(r: Request): (m: Result<HttpRequestMessage<Request>>)
    ensures m.Failure? <==> r.compactionId <= 0
    ensures m.Failure? ==> m.error == Validate(r).error
    ensures m.Success? ==> m.value.verb == Get && m.value.url == RestPath && m.value.content.None?
  {
    match Validate(r)
    case Fail(e) => Failure(e)
    case Pass => Success(CreateGetRequest(RestPath, NoPayload))
  }

  lemma BuildersAgree(r: Request)
    ensures BuildGrpc(r).Failure? <==> BuildRest(r).Failure?
    ensures BuildGrpc(r).Failure? ==> BuildGrpc(r).error == BuildRest(r).error
  {
  }

  /** The REST form is the same for every valid id: the id is not part of it. */
  lemma RestIgnoresId(a: Request, b: Request)
    requires a.compactionId > 0 && b.compactionId > 0
    ensures BuildRest(a) == BuildRest(b)
  {
  }
}
