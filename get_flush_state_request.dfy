/** `GetFlushStateRequest`: the request for the flush state of some segments. */
module GetFlushStateRequest {
  import opened Common
  import opened HttpRequest
  import ApiVersion

  /** The request object; the id list may be null. */
  datatype Request = Request(segmentIds: Option<seq<Int64>>)

  /** The gRPC message `Grpc.GetFlushStateRequest`. */
  datatype GrpcMessage = GrpcMessage(segmentIds: seq<Int64>)

  const RestPath := ApiVersion.V1 + "/persist/state"
  const EmptyMessage := "SegmentIds Cannot be null or empty."

  function Create(segmentIds: Option<seq<Int64>>): (r: Request)
    ensures r.segmentIds == segmentIds
  {
    Request(segmentIds)
  }

  function Validate(r: Request): (o: Outcome)
    ensures o.Fail? <==> r.segmentIds.None? || |r.segmentIds.value| == 0
    ensures o.Fail? ==> o.error == ArgumentException(EmptyMessage)
  {
    if r.segmentIds.None? || |r.segmentIds.value| == 0 then Fail(ArgumentException(EmptyMessage))
    else Pass
  }

  /** A fresh message whose `SegmentIDs` list receives the ids by `AddRange`:
      the same ids in the same order. */
  function BuildGrpc(r: Request): (m: Result<GrpcMessage>)
    ensures m.Failure? <==> Validate(r).Fail?
    ensures m.Failure? ==> m.error == Validate(r).error
    ensures m.Success? ==> r.segmentIds == Some(m.value.segmentIds)
  {
    match Validate(r)
    case Fail(e) => Failure(e)
    case Pass => Success(GrpcMessage(r.segmentIds.value))
  }

  function BuildRest(r: Request): (m: Result<HttpRequestMessage<Request>>)
    ensures m.Failure? <==> Validate(r).Fail?
    ensures m.Failure? ==> m.error == Validate(r).error
    ensures m.Success? ==> m.value.verb == Get && m.value.url == RestPath && PayloadOf(m.value.content) == Object(r)
  {
    match Validate(r)
    case Fail(e) => Failure(e)
    case Pass => Success(CreateGetRequest(RestPath, Object(r)))
  }

  lemma BuildersAgree(r: Request)
    ensures BuildGrpc(r).Failure? <==> BuildRest(r).Failure?
    ensures BuildGrpc(r).Failure? ==> BuildGrpc(r).error == BuildRest(r).error
  {
  }
}
