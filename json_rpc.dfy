/**
 * The storage engine's replies, as the bridge's JSON-RPC client reads them.
 * A reply is the response object of section 5 of the JSON-RPC 2.0
 * specification: an id, an error member with a code and a message, and a
 * result. The framing and the decoding of the result are not modelled; a
 * result is one of the few shapes the engine methods use.
 */
module JsonRpc {
  import opened Wrappers

  /** One entry of a `bdev_get_iostat` result. */
  datatype BdevIostat = BdevIostat(
    name: string,
    bytesRead: nat,
    numReadOps: nat,
    bytesWritten: nat,
    numWriteOps: nat,
    readLatencyTicks: nat,
    writeLatencyTicks: nat)

  /** The counters the API reports for one statistics entry. */
  datatype VolumeStats = VolumeStats(
    readBytesCount: nat,
    readOpsCount: nat,
    writeBytesCount: nat,
    writeOpsCount: nat,
    readLatencyTicks: nat,
    writeLatencyTicks: nat)

  /** The counters of one entry, copied field by field (the tick rate is not reported). */
  function StatsOf(b: BdevIostat): VolumeStats {
    VolumeStats(b.bytesRead, b.numReadOps, b.bytesWritten, b.numWriteOps, b.readLatencyTicks, b.writeLatencyTicks)
  }

  /** A decoded `result` member. `NoResult` stands for an absent result. */
  datatype ResultValue =
    | BoolResult(b: bool)
    | ListResult(items: seq<string>)
    | IostatResult(bdevs: seq<BdevIostat>)
    | NoResult

  /** What the engine sent back: nothing at all (the stream ended), or a response object. */
  datatype Reply =
    | EmptyReply
    | Response(id: nat, errorCode: int, errorMessage: string, result: ResultValue)

  /** The result shape an engine method expects. */
  datatype Shape = BoolShape | ListShape | IostatShape

  /** One request/response exchange: the id the client sent and the reply it got. */
  datatype Exchange = Exchange(requestId: nat, reply: Reply)

  /** Why a call failed, in the order the client checks. */
  datatype CallError =
    | Eof
    | IdMismatch
    | ResponseError(message: string)
    | Undecodable

  /** Whether a result has the shape the caller decodes it into. */
  predicate Fits(v: ResultValue, shape: Shape) {
    match shape
    case BoolShape => v.BoolResult?
    case ListShape => v.ListResult?
    case IostatShape => v.IostatResult?
  }

  /**
   * Classification of a reply: an empty reply is end of stream, then a
   * different id is a mismatch, then a nonzero error code is an error with
   * the engine's message, then a result of the wrong shape cannot be decoded;
   * anything else is the result.
   */
  function Receive(ex: Exchange, shape: Shape): (r: Result<ResultValue, CallError>)
    ensures r == Failure(Eof) <==> ex.reply.EmptyReply?
    ensures r == Failure(IdMismatch) <==> ex.reply.Response? && ex.reply.id != ex.requestId
    ensures r.Failure? && r.error.ResponseError? <==>
              ex.reply.Response? && ex.reply.id == ex.requestId && ex.reply.errorCode != 0
    ensures r.Failure? && r.error.ResponseError? ==> r.error.message == ex.reply.errorMessage
    ensures r.Success? <==>
              ex.reply.Response? && ex.reply.id == ex.requestId && ex.reply.errorCode == 0 && Fits(ex.reply.result, shape)
    ensures r.Success? ==> r.value == ex.reply.result && Fits(r.value, shape)
  {
    match ex.reply
    case EmptyReply => Failure(Eof)
    case Response(id, code, msg, result) =>
      if id != ex.requestId then Failure(IdMismatch)
      else if code != 0 then Failure(ResponseError(msg))
      else if !Fits(result, shape) then Failure(Undecodable)
      else Success(result)
  }

  /** The text the client reports for a failure (the decoder's own text is not modelled). */
  function ErrorText(e: CallError): string
    requires !e.Undecodable?
  {
    match e
    case Eof => "EOF"
    case IdMismatch => "json response ID mismatch"
    case ResponseError(msg) => "json response error: " + msg
  }

  /** The response a well-behaved engine sends for a successful call. */
  function Respond(requestId: nat, value: ResultValue): Reply {
    Response(requestId, 0, "", value)
  }

  /** The response a well-behaved engine sends for a failed call. */
  function RespondError(requestId: nat, code: int, message: string): Reply
    requires code != 0
  {
    Response(requestId, code, message, NoResult)
  }

  /** A successful response to the request that was sent is received as its result. */
  lemma ReceiveRespond(requestId: nat, value: ResultValue, shape: Shape)
    requires Fits(value, shape)
    ensures Receive(Exchange(requestId, Respond(requestId, value)), shape) == Success(value)
  {
  }

  /** An error response to the request that was sent is received as that error. */
  lemma ReceiveRespondError(requestId: nat, code: int, message: string, shape: Shape)
    requires code != 0
    ensures Receive(Exchange(requestId, RespondError(requestId, code, message)), shape)
              == Failure(ResponseError(message))
  {
  }

  /** The three failure texts are pairwise different, so a caller can tell them apart. */
  lemma ErrorTextsDistinct(m: string)
    ensures ErrorText(Eof) != ErrorText(IdMismatch)
    ensures ErrorText(Eof) != ErrorText(ResponseError(m))
    ensures ErrorText(IdMismatch) != ErrorText(ResponseError(m))
  {
    assert ErrorText(Eof)[0] != ErrorText(IdMismatch)[0];
    assert ErrorText(Eof)[0] != ErrorText(ResponseError(m))[0];
    assert ErrorText(IdMismatch)[14] != ErrorText(ResponseError(m))[14];
  }

  /** Different call errors have different texts. */
  lemma ErrorTextInjective(e1: CallError, e2: CallError)
    requires !e1.Undecodable? && !e2.Undecodable? && e1 != e2
    ensures ErrorText(e1) != ErrorText(e2)
  {
    if e1.ResponseError? && e2.ResponseError? {
      assert ErrorText(e1)[21..] == e1.message;
      assert ErrorText(e2)[21..] == e2.message;
    } else {
      ErrorTextsDistinct(if e1.ResponseError? then e1.message else if e2.ResponseError? then e2.message else "");
    }
  }
}
