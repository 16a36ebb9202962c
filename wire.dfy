/**
 * The envelopes exchanged over one push stream, the errors the engine
 * returns, and the reserved API names and payloads of the handshake.
 */
module Wire {

  datatype Option<T> = None | Some(value: T)

  datatype Result<T> = Ok(value: T) | Err(error: Error)

  type byte = b: int | 0 <= b < 256

  type Bytes = seq<byte>

  /** Names one transport stream (one connection). */
  type StreamRef = nat

  /** The `error` values the engine produces or passes through. */
  datatype Error =
    | TransportError(reason: string)   // a failed Recv/Send or stream open, as reported by the transport
    | NoRegisterProto(api: string)     // first envelope of a connection was not a registration
    | HookError(reason: string)        // an error returned by an application hook
    | DupId                            // the client's registration was rejected as a duplicate
    | SendFailed(cause: Error)         // "send failed: ..." on the client
    | RecvFailed(cause: Error)         // "recv failed: ..." on the client

  /**
   * The data field of a client-to-server envelope. A registration carries
   * the JSON array of the client's API names, modelled as that list of
   * names; any other envelope carries raw bytes.
   */
  datatype Payload = Raw(bytes: Bytes) | NameList(names: seq<string>)

  /** Client-to-server envelope. */
  datatype Request = Request(api: string, id: string, data: Payload)

  /** Server-to-client envelope. */
  datatype Response = Response(api: string, data: Bytes)

  const RegisterApi: string := "/register"
  const OkApi: string := "/ok"
  const ErrorApi: string := "/error"

  /** The bytes of "dup id". */
  const DupIdText: Bytes := [100, 117, 112, 32, 105, 100]

  /** The bytes of "success". */
  const SuccessText: Bytes := [115, 117, 99, 99, 101, 115, 115]

  /** Rejection of a registration whose id is already live. */
  const DupResponse: Response := Response(ErrorApi, DupIdText)

  /** Acknowledgment of an accepted registration. */
  const OkResponse: Response := Response(OkApi, SuccessText)

  predicate IsRegistration(first: Result<Request>) {
    first.Ok? && first.value.api == RegisterApi
  }
}
