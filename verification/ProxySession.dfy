/** One client connection of the CQL proxy, services/dual-writer/src/cql_server.cpp: the choice between
    dual-writing and forwarding, and the tracking of prepared statements. */
module ProxySession {
  import opened MachineIntegers
  import opened Codec
  import opened QueryText
  import opened RetryProtocol
  import opened DualWriterService

  datatype PreparedStmt = PreparedStmt(query: string, isWrite: bool)

  /** Statement id to the query it was prepared from. */
  type Prepared = map<seq<byte>, PreparedStmt>

  datatype Plan = DualWrite(query: string, table: string) | Forward

  /** Length prefixes that the code reads as sizes are not negative. */
  predicate Readable(f: Frame) {
    && (f.header.opcode == OP_QUERY || f.header.opcode == OP_PREPARE ==>
          4 <= |f.body| ==> ReadI32(f.body, 0) >= 0)
    && (f.header.opcode == OP_EXECUTE ==> 2 <= |f.body| ==> ReadI16(f.body, 0) >= 0)
  }

  /** The response is long enough for a statement id, a RESULT, and of kind PREPARED. */
  predicate IsPreparedResult(response: seq<byte>) {
    |response| > 15 && response[4] == OP_RESULT && ReadI32(response, 9) == RESULT_PREPARED
  }

  /** Only the answer to a PREPARE is looked into, and only if it is a RESULT/PREPARED. */
  predicate ReadableResponse(request: Frame, response: seq<byte>) {
    request.header.opcode == OP_PREPARE && IsPreparedResult(response) ==> ReadI16(response, 13) >= 0
  }

  function QueryOf(f: Frame): string
    requires Readable(f) && (f.header.opcode == OP_QUERY || f.header.opcode == OP_PREPARE)
  {
    ParseLongString(f.body, 0)
  }

  /** The statement id of an EXECUTE body, empty when the body is cut short. */
  function ExecuteId(body: seq<byte>): seq<byte>
    requires 2 <= |body| ==> ReadI16(body, 0) >= 0
  {
    if |body| < 2 then []
    else
      var len := ReadI16(body, 0);
      if |body| < 2 + len then [] else body[2..2 + len]
  }

  /** The `switch` of the proxy loop. */
  function PlanFor(prepared: Prepared, f: Frame): Plan
    requires Readable(f)
  {
    if f.header.opcode == OP_QUERY then
      var query := QueryOf(f);
      if IsWrite(query) then DualWrite(query, Target(query)) else Forward
    else if f.header.opcode == OP_EXECUTE then
      var id := ExecuteId(f.body);
      if id in prepared && prepared[id].isWrite then DualWrite(prepared[id].query, Target(prepared[id].query))
      else Forward
    else Forward
  }

  /** The id in the answer to a PREPARE, read from the raw response. */
  function PreparedId(response: seq<byte>): Option<seq<byte>>
    requires IsPreparedResult(response) ==> ReadI16(response, 13) >= 0
  {
    if IsPreparedResult(response) then
      var len := ReadI16(response, 13);
      if |response| >= 15 + len then Some(response[15..15 + len]) else None
    else None
  }

  function Track(prepared: Prepared, f: Frame, response: seq<byte>): Prepared
    requires Readable(f) && ReadableResponse(f, response)
  {
    if f.header.opcode != OP_PREPARE then prepared
    else
      match PreparedId(response)
      case None => prepared
      case Some(id) => prepared[id := PreparedStmt(QueryOf(f), IsWrite(QueryOf(f)))]
  }

  // ---------------------------------------------------------------------------
  // The protocol's own encodings
  // ---------------------------------------------------------------------------

  /** A RESULT/PREPARED answer (section 4.2.5.4 of the CQL Binary Protocol v4): kind, short bytes id, metadata. */
  function PreparedResponse(streamId: int16, id: seq<byte>, metadata: seq<byte>): Frame
    requires |id| < 0x8000 && |metadata| < 0x7000_0000
  {
    var body := Bytes32(RESULT_PREPARED) + Bytes16(|id|) + id + metadata;
    Frame(ResponseHeader(OP_RESULT, streamId, |body|), body)
  }

  /** An EXECUTE body (section 4.1.6): short bytes id, then the query parameters. */
  function ExecuteBody(id: seq<byte>, parameters: seq<byte>): seq<byte>
    requires |id| < 0x8000
  {
    Bytes16(|id|) + id + parameters
  }

  lemma ExecuteIdRoundTrip(id: seq<byte>, parameters: seq<byte>)
    requires |id| < 0x8000
    ensures ReadI16(ExecuteBody(id, parameters), 0) == |id|
    ensures ExecuteId(ExecuteBody(id, parameters)) == id
  {
    var body := ExecuteBody(id, parameters);
    Read16OfBytes([], |id|, id + parameters);
    assert body == [] + Bytes16(|id|) + (id + parameters);
    assert body[2..2 + |id|] == id;
  }

  /** Every non-empty id the source can return is tracked. */
  lemma PreparedIdRoundTrip(streamId: int16, id: seq<byte>, metadata: seq<byte>)
    requires 0 < |id| < 0x8000 && |metadata| < 0x7000_0000
    ensures var response := FrameBytes(PreparedResponse(streamId, id, metadata));
            IsPreparedResult(response) && ReadI16(response, 13) >= 0 && PreparedId(response) == Some(id)
  {
    hide ReadI32, ReadI16, HeaderBytes, Bytes32, Bytes16;
    var f := PreparedResponse(streamId, id, metadata);
    var header := HeaderBytes(f.header);
    var response := FrameBytes(f);
    var kind, length := Bytes32(RESULT_PREPARED), Bytes16(|id|);
    HeaderLayout(f.header);
    assert response[4] == header[4];
    Read32OfBytes(header, RESULT_PREPARED, length + id + metadata);
    assert response == header + kind + (length + id + metadata);
    Read16OfBytes(header + kind, |id|, id + metadata);
    assert response == header + kind + length + (id + metadata);
    assert response[15..15 + |id|] == id;
  }

  /** A QUERY or PREPARE body as the protocol lays it out (sections 4.1.4 and 4.1.5): the text as a long string, then
      parameters. */
  ghost predicate CarriesText(f: Frame, text: string) {
    && (f.header.opcode == 0x07 || f.header.opcode == 0x09)
    && IsByteText(text) && |text| < 0x8000_0000
    && LongStringBytes(text) <= f.body
  }

  /** The proxy reads exactly the text, whatever follows it in the body. */
  lemma QueryRoundTrip(f: Frame, text: string)
    requires CarriesText(f, text)
    ensures Readable(f) && QueryOf(f) == text
  {
    hide LongStringBytes, ParseLongString, ReadI32;
    var tail := f.body[|LongStringBytes(text)|..];
    assert f.body == [] + LongStringBytes(text) + tail;
    LongStringRoundTrip([], text, tail);
  }

  /** A body cut short inside the text is read as the empty text. */
  lemma QueryCutShort(f: Frame, text: string)
    requires (f.header.opcode == 0x07 || f.header.opcode == 0x09) && IsByteText(text) && |text| < 0x8000_0000
    requires f.body < LongStringBytes(text)
    ensures Readable(f) && QueryOf(f) == ""
  {
    hide LongStringBytes, ParseLongString, ReadI32;
    assert [] + LongStringBytes(text) == LongStringBytes(text);
    assert f.body == LongStringBytes(text)[..|f.body|];
    TruncatedLongString([], text, |f.body|);
  }

  /** The id taken from a response, byte by byte: a RESULT (opcode 8) of kind 4 whose id, of the length in the two bytes
      before it, is complete; nothing is taken from any other response. */
  lemma PreparedIdExact(response: seq<byte>, id: seq<byte>)
    requires IsPreparedResult(response) ==> ReadI16(response, 13) >= 0
    ensures PreparedId(response) == Some(id) <==>
            && |response| > 15 && response[4] == 8 && response[9..13] == [0, 0, 0, 4]
            && BigEndian16(response[13], response[14]) == |id| < 0x8000
            && |response| >= 15 + |id| && response[15..15 + |id|] == id
  {
    if |response| > 15 {
      KindIsFour(response);
    }
  }

  lemma KindIsFour(response: seq<byte>)
    requires |response| >= 13
    ensures ReadI32(response, 9) == RESULT_PREPARED <==> response[9..13] == [0, 0, 0, 4]
  {
  }

  /** The id taken from an EXECUTE body, byte by byte; a body cut short gives the empty id. */
  lemma ExecuteIdExact(body: seq<byte>)
    requires 2 <= |body| ==> ReadI16(body, 0) >= 0
    ensures if |body| >= 2 && |body| >= 2 + BigEndian16(body[0], body[1])
            then ExecuteId(body) == body[2..2 + BigEndian16(body[0], body[1])]
            else ExecuteId(body) == []
  {
  }

  // ---------------------------------------------------------------------------
  // Tracking over a connection's history
  // ---------------------------------------------------------------------------

  datatype Exchange = Exchange(request: Frame, response: seq<byte>)

  predicate ReadableExchange(x: Exchange) {
    Readable(x.request) && ReadableResponse(x.request, x.response)
  }

  /** The exchange is a PREPARE that the source answered with `id`. */
  predicate Prepares(x: Exchange, id: seq<byte>)
    requires ReadableExchange(x)
  {
    x.request.header.opcode == OP_PREPARE && PreparedId(x.response) == Some(id)
  }

  predicate ReadableHistory(history: seq<Exchange>) {
    forall i :: 0 <= i < |history| ==> ReadableExchange(history[i])
  }

  /** The tracker after a history, one exchange at a time. */
  function TrackAll(history: seq<Exchange>): Prepared
    requires ReadableHistory(history)
  {
    if history == [] then map[]
    else
      var last := history[|history| - 1];
      assert ReadableExchange(last);
      Track(TrackAll(history[..|history| - 1]), last.request, last.response)
  }

  /** `i` is the most recent PREPARE that returned `id`. */
  ghost predicate LatestPrepare(history: seq<Exchange>, id: seq<byte>, i: int)
    requires ReadableHistory(history)
  {
    && 0 <= i < |history| && Prepares(history[i], id)
    && forall j :: i < j < |history| ==> !Prepares(history[j], id)
  }

  /** The tracker holds an id exactly when some PREPARE returned it, with the query of the latest one. */
  lemma {:induction false} TrackedIsLatest(history: seq<Exchange>, id: seq<byte>)
    requires ReadableHistory(history)
    ensures id in TrackAll(history) <==> exists i :: LatestPrepare(history, id, i)
    ensures forall i :: LatestPrepare(history, id, i) ==>
              TrackAll(history)[id] ==
              PreparedStmt(QueryOf(history[i].request), IsWrite(QueryOf(history[i].request)))
  {
    hide IsWrite, PreparedId, QueryOf, Track, Readable, ReadableResponse, LatestPrepare, Prepares;
    if history == [] {
      NoHistory(id);
    } else {
      var n := |history| - 1;
      var before := history[..n];
      TrackedIsLatest(before, id);
      assert ReadableExchange(history[n]);
      if Prepares(history[n], id) {
        JustPrepared(history, id);
        assert LatestPrepare(history, id, n);
        TrackSame(TrackAll(before), history[n], id);
      } else {
        forall i
          ensures LatestPrepare(history, id, i) <==> LatestPrepare(before, id, i)
          ensures LatestPrepare(before, id, i) ==> 0 <= i < n && before[i] == history[i]
        {
          LatestPrefix(history, id, i);
        }
        TrackOther(TrackAll(before), history[n], id);
      }
    }
  }

  lemma NoHistory(id: seq<byte>)
    ensures forall i :: !LatestPrepare([], id, i)
  {
  }

  lemma JustPrepared(history: seq<Exchange>, id: seq<byte>)
    requires ReadableHistory(history) && history != [] && Prepares(history[|history| - 1], id)
    ensures forall i :: LatestPrepare(history, id, i) <==> i == |history| - 1
  {
    hide PreparedId, QueryOf, Readable, ReadableResponse;
  }

  lemma TrackSame(prepared: Prepared, x: Exchange, id: seq<byte>)
    requires ReadableExchange(x) && Prepares(x, id)
    ensures var after := Track(prepared, x.request, x.response);
            id in after && after[id] == PreparedStmt(QueryOf(x.request), IsWrite(QueryOf(x.request)))
  {
    hide PreparedId, QueryOf, IsWrite;
  }

  lemma LatestPrefix(history: seq<Exchange>, id: seq<byte>, i: int)
    requires ReadableHistory(history) && history != [] && !Prepares(history[|history| - 1], id)
    ensures LatestPrepare(history, id, i) <==> LatestPrepare(history[..|history| - 1], id, i)
    ensures LatestPrepare(history, id, i) ==> 0 <= i < |history| - 1
  {
    hide PreparedId, QueryOf, Readable, ReadableResponse, Prepares;
    var before := history[..|history| - 1];
    assert forall j :: 0 <= j < |before| ==> before[j] == history[j];
  }

  lemma TrackOther(prepared: Prepared, x: Exchange, id: seq<byte>)
    requires ReadableExchange(x) && !Prepares(x, id)
    ensures var after := Track(prepared, x.request, x.response);
            (id in after <==> id in prepared) && (id in prepared ==> after[id] == prepared[id])
  {
    hide PreparedId, QueryOf, IsWrite;
  }

  /** EXECUTE of an id is dual-written if and only if the most recent tracked PREPARE that
      returned this id on the connection carried a write; the statement sent is that query. */
  lemma ExecutePlan(history: seq<Exchange>, f: Frame, id: seq<byte>, parameters: seq<byte>)
    requires ReadableHistory(history)
    requires f.header.opcode == 0x0A && |id| < 0x8000 && f.body == ExecuteBody(id, parameters)
    ensures Readable(f)
    ensures PlanFor(TrackAll(history), f).DualWrite? <==>
            exists i :: LatestPrepare(history, id, i) && IsWrite(QueryOf(history[i].request))
    ensures forall i :: LatestPrepare(history, id, i) && IsWrite(QueryOf(history[i].request)) ==>
              PlanFor(TrackAll(history), f) ==
              DualWrite(QueryOf(history[i].request), Target(QueryOf(history[i].request)))
  {
    hide IsWrite, Target, TrackAll, ExecuteId, ReadI16, ExecuteBody, LatestPrepare;
    ExecuteIdRoundTrip(id, parameters);
    TrackedIsLatest(history, id);
  }

  // ---------------------------------------------------------------------------
  // The connection object
  // ---------------------------------------------------------------------------

  /** The connection's own socket to the source. `answers` is the frame that answers the n-th forwarded one. */
  class SourceSocket {
    const answers: nat -> Frame
    var sent: seq<Frame>

    constructor (answers: nat -> Frame)
      ensures this.answers == answers && sent == []
    {
      this.answers, sent := answers, [];
    }

    /** `forward_and_proxy`: the request goes out unchanged, the answer comes back unchanged. */
    method ForwardAndProxy(f: Frame) returns (response: seq<byte>)
      modifies this
      ensures sent == old(sent) + [f]
      ensures response == FrameBytes(answers(|old(sent)|))
    {
      response := FrameBytes(answers(|sent|));
      sent := sent + [f];
    }
  }

  class ProxyConnection {
    const writer: DualWriter
    const socket: SourceSocket
    var prepared: Prepared
    ghost var history: seq<Exchange>

    ghost predicate Valid()
      reads this, writer, writer.filter, writer.source, writer.target
    {
      writer.Valid() && ReadableHistory(history) && prepared == TrackAll(history)
    }

    constructor (writer: DualWriter, socket: SourceSocket)
      requires writer.Valid()
      ensures Valid() && this.writer == writer && this.socket == socket
      ensures prepared == map[] && history == []
    {
      this.writer, this.socket := writer, socket;
      prepared, history := map[], [];
    }

    /** The `switch` of the proxy loop, with the text scanners. */
    method ChoosePlan(f: Frame) returns (plan: Plan)
      requires Readable(f)
      ensures plan == PlanFor(prepared, f)
    {
      hide IsWrite, Target, ParseLongString;
      plan := Forward;
      if f.header.opcode == OP_QUERY {
        var query := ParseLongString(f.body, 0);
        var isWrite := IsWriteQuery(query);
        if isWrite {
          var table := ExtractTableTarget(query);
          plan := DualWrite(query, table);
        }
      } else if f.header.opcode == OP_EXECUTE {
        var id := ExecuteId(f.body);
        if id in prepared && prepared[id].isWrite {
          var table := ExtractTableTarget(prepared[id].query);
          plan := DualWrite(prepared[id].query, table);
        }
      }
    }

    /** One round of the proxy loop: a write is sent to both clusters and answered with VOID once the source
        has acknowledged it; everything else, and a write the source refused, goes to the source unchanged. */
    method HandleFrame(f: Frame, id: EntryId, ghost w: WriteId) returns (response: seq<byte>)
      requires Valid() && WellFormed(f) && Readable(f)
      requires ReadableResponse(f, FrameBytes(socket.answers(|socket.sent|)))
      requires w !in writer.model.calls && id !in writer.model.ledger.issued
      modifies this, socket, writer, writer.source, writer.target, writer.filter
      ensures Valid()
      ensures history == old(history) + [Exchange(f, response)]
      ensures prepared == Track(old(prepared), f, response)
      ensures var plan := PlanFor(old(prepared), f);
              var forwarded := FrameBytes(socket.answers(|old(socket.sent)|));
              match plan
              case Forward =>
                && response == forwarded && socket.sent == old(socket.sent) + [f]
                && writer.trace == old(writer.trace)
              case DualWrite(query, table) =>
                && writer.AskedOnce(writer.source, old(writer.source.executions), old(writer.source.acknowledged),
                                    query)
                && writer.trace == old(writer.trace)
                   + WriteSteps(w, query, table, id, old(writer.model.rules.Skips(table)),
                                writer.source.replies(old(writer.source.executions)),
                                writer.target.replies(old(writer.target.executions)))
                && w in writer.model.calls && writer.model.calls[w].cql == query && writer.model.calls[w].table == table
                && writer.model.calls[w].phase.Returned?
                && writer.model.calls[w].phase.sourceOk == writer.source.replies(old(writer.source.executions)).Acked?
                && (if writer.source.replies(old(writer.source.executions)).Acked?
                    then response == FrameBytes(VoidResult(f.header.streamId)) && socket.sent == old(socket.sent)
                    else response == forwarded && socket.sent == old(socket.sent) + [f])
    {
      hide CanRun, Run, WriteSteps, FrameBytes, Track, DualWriter.Valid, PlanFor, TrackAll, ReadableHistory;
      hide Readable, ReadableResponse, VoidResult, DualWriter.AskedOnce;
      var plan := ChoosePlan(f);
      match plan {
        case Forward =>
          response := socket.ForwardAndProxy(f);
        case DualWrite(query, table) =>
          var result := writer.Write(query, table, id, w);
          if result.sourceOk {
            response := BuildVoidResult(f.header.streamId);
            VoidIsReadable(f, f.header.streamId);
          } else {
            response := socket.ForwardAndProxy(f);
          }
      }
      RecordExchange(f, response);
    }

    /** After a PREPARE the returned id is tracked with its query. */
    method RecordExchange(f: Frame, response: seq<byte>)
      requires Readable(f) && ReadableResponse(f, response)
      requires ReadableHistory(history) && prepared == TrackAll(history)
      modifies this
      ensures history == old(history) + [Exchange(f, response)]
      ensures ReadableHistory(history) && prepared == TrackAll(history)
      ensures prepared == Track(old(prepared), f, response)
    {
      hide IsWrite, PreparedId, QueryOf;
      if f.header.opcode == OP_PREPARE {
        match PreparedId(response) {
          case None =>
          case Some(id) =>
            var query := QueryOf(f);
            var isWrite := IsWriteQuery(query);
            prepared := prepared[id := PreparedStmt(query, isWrite)];
        }
      }
      history := history + [Exchange(f, response)];
      assert ReadableExchange(Exchange(f, response));
      assert history[..|history| - 1] == old(history);
    }
  }

  lemma VoidIsReadable(request: Frame, streamId: int16)
    ensures ReadableResponse(request, FrameBytes(VoidResult(streamId)))
  {
  }
}
