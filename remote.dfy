/** The remote synthesis service, seen from the tools: it takes a request and answers with a
    forward-only stream of audio chunks that either ends normally or breaks with an error. */
module Remote {
  import opened Common
  import opened Request

  /** The answer to one request: the chunks delivered, in arrival order, and then either the
      normal end of the stream (`failure == None`) or the error raised after the last of them.
      An error raised by the call itself is a response with no chunks. */
  datatype Response = Response(chunks: seq<seq<byte>>, failure: Option<string>)

  /** A client session. `respond` stands for the service; `sent` records every request made
      through the session, in order. */
  class Session {
    const respond: TtsRequest -> Response
    var sent: seq<TtsRequest>

    constructor (respond: TtsRequest -> Response)
      ensures this.respond == respond && sent == []
    {
      this.respond := respond;
      sent := [];
    }

    /** session.tts(request). */
    method Tts(req: TtsRequest) returns (resp: Response)
      modifies this
      ensures sent == old(sent) + [req]
      ensures resp == respond(req)
    {
      sent := sent + [req];
      resp := respond(req);
    }
  }
}
