/** The values that travel through Pype, and the two stock result types. */
module Messages {

  type ClientId = string
  type RequestId = string
  type ServiceName = string

  newtype Byte = b: int | 0 <= b < 256

  /** What a client puts on a service queue. */
  datatype PypeRequest = PypeRequest(clientId: ClientId, requestId: RequestId, contentType: string, payload: seq<Byte>)

  /** What a service puts on a client queue; the queue itself says which client it is for.
      The client library's ServiceResponse carries the same three fields. */
  datatype PypeResponse = PypeResponse(requestId: RequestId, contentType: string, payload: seq<Byte>)

  datatype Option<+T> = None | Some(value: T)

  datatype Result<+T, +E> = Ok(value: T) | Err(error: E)
}
