/** `MyProxyService::get_next_hop` (`src/grpc/service.rs`): the one RPC of
    the routing service, currently a placeholder that sends every call to
    the B2BUA. */
module ProxyService {
  import opened Wrappers
  import Errors

  datatype GetNextHopRequest = GetNextHopRequest(destinationUri: string)

  datatype GetNextHopResponse = GetNextHopResponse(uri: string, gatewayId: string)

  const NEXT_HOP_URI := "sentiric-b2bua-service:12081"
  const NEXT_HOP_GATEWAY_ID := "sentiric-b2bua"

  /** Never fails, for any request, and answers with the fixed B2BUA hop. */
  function GetNextHop(request: GetNextHopRequest): (r: Result<GetNextHopResponse, Errors.Status>)
    ensures r.Ok?
    ensures r.value.uri == NEXT_HOP_URI
    ensures r.value.gatewayId == NEXT_HOP_GATEWAY_ID
  {
    Ok(GetNextHopResponse(NEXT_HOP_URI, NEXT_HOP_GATEWAY_ID))
  }

  /** The answer does not depend on the request. */
  lemma GetNextHopIgnoresRequest(a: GetNextHopRequest, b: GetNextHopRequest)
    ensures GetNextHop(a) == GetNextHop(b)
  {}

  /** An empty destination URI is accepted like any other. */
  lemma GetNextHopAcceptsEmptyUri()
    ensures GetNextHop(GetNextHopRequest("")).Ok?
  {}
}
