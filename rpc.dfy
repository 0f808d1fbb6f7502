/** The parts of gRPC the interceptors and handlers touch: status errors and
    incoming metadata. */
module Rpc {
  import opened Bytes
  import opened Outcomes

  datatype Code = Unauthenticated | NotFound | Unknown

  /** A status error, `grpc.Errorf(code, message)`; an ordinary Go error
      returned by a handler reaches the caller with code `Unknown`. */
  datatype RpcError = RpcError(code: Code, message: string)

  /** The metadata of an incoming call: `None` when the context carries no
      metadata, otherwise its multimap from header name to values. */
  type Metadata = Option<map<string, seq<Bytes>>>

  /** The values of the `auth` header (`meta["auth"]`: none when absent). */
  function AuthValues(md: map<string, seq<Bytes>>): seq<Bytes> {
    if "auth" in md then md["auth"] else []
  }

  /** The metadata a client attaches with `metadata.Pairs("auth", token)`. */
  function AuthHeader(token: Bytes): (md: Metadata)
    ensures md.Some? && AuthValues(md.value) == [token]
  {
    Some(map["auth" := [token]])
  }

  /** The text of a status error as a client sees it (`err.Error()`). */
  function Text(e: RpcError): string {
    "rpc error: code = "
    + (match e.code
       case Unauthenticated => "Unauthenticated"
       case NotFound => "NotFound"
       case Unknown => "Unknown")
    + " desc = " + e.message
  }
}
