/** JSON-RPC 2.0 on JSON trees: the dispatcher (src/jsonrpc.rs) and the Rust client (src/client.rs). */
module Rpc {
  import opened Basics
  import opened Requests

  const ERR_PARSE_ERROR := -32700
  const ERR_INVALID_REQUEST := -32600
  const ERR_METHOD_NOT_FOUND := -32601
  const ERR_INVALID_PARAMS := -32602
  const ERR_WRITE_FAILED := -32000
  const ERR_GATEWAY_OVERLOADED := -32001
  const ERR_GATEWAY_CLOSED := -32002

  /** What `GatewayHandle::execute` can give back. */
  datatype ExecuteResult = Replied(response: WriteResponse) | Overloaded | Closed | OtherError(message: string)

  /** What `GatewayHandle::checkpoint` can give back. */
  datatype CheckpointResult = Checkpointed | CheckpointClosed | CheckpointFailed(message: string)

  /** The text of the error that a stopped writer leads to. */
  const CLOSED_TEXT: string := "gateway is closed"

  /** Everything a dispatch takes from its surroundings. */
  datatype World = World(
    execute: WriteRequest -> ExecuteResult,
    stats: Json,
    checkpoint: CheckpointResult,
    uuid: string,
    fracText: F64Bits -> string)

  function NatText(n: nat): string {
    if n < 10 then ["0123456789"[n]] else NatText(n / 10) + ["0123456789"[n % 10]]
  }

  function IntText(n: int): string {
    if n < 0 then "-" + NatText(-n) else NatText(n)
  }

  // ---- Field access ----

  function Get(j: Json, key: string): Option<Json> {
    if j.Obj? && key in j.fields then Some(j.fields[key]) else None
  }

  function AsStr(j: Option<Json>): Option<string> {
    if j.Some? && j.value.Str? then Some(j.value.s) else None
  }

  function AsI64(j: Option<Json>): Option<int> {
    if j.Some? && j.value.Num? && -0x8000_0000_0000_0000 <= j.value.n < 0x8000_0000_0000_0000
    then Some(j.value.n) else None
  }

  function OrNull(s: Option<string>): Json {
    if s.Some? then Str(s.value) else Null
  }

  // ---- Replies ----

  function OkReply(id: Json, result: Json): Json {
    Obj(map["jsonrpc" := Str("2.0"), "id" := id, "result" := result])
  }

  function ErrReply(id: Json, code: int, message: string): Json {
    Obj(map["jsonrpc" := Str("2.0"), "id" := id,
            "error" := Obj(map["code" := Num(code), "message" := Str(message)])])
  }

  function ErrReplyData(id: Json, code: int, message: string, data: Json): Json {
    Obj(map["jsonrpc" := Str("2.0"), "id" := id,
            "error" := Obj(map["code" := Num(code), "message" := Str(message), "data" := data])])
  }

  // ---- Requests coming in ----

  /** A request after structural decoding; `id` and `params` default to null. */
  datatype RawRequest = RawRequest(jsonrpc: Option<string>, id: Json, verb: Option<string>, params: Json)

  predicate TextOrAbsent(j: Option<Json>) {
    j.None? || j.value.Null? || j.value.Str?
  }

  function IdOf(j: Json): Json {
    if Get(j, "id").Some? then Get(j, "id").value else Null
  }

  function Decode(j: Json): Option<RawRequest> {
    if !j.Obj? || !TextOrAbsent(Get(j, "jsonrpc")) || !TextOrAbsent(Get(j, "method")) then None
    else Some(RawRequest(AsStr(Get(j, "jsonrpc")), IdOf(j), AsStr(Get(j, "method")),
                         if Get(j, "params").Some? then Get(j, "params").value else Null))
  }

  datatype Parsed<+T> = Good(value: T) | Bad(message: string)

  function ParseOperation(j: Json, i: nat): Parsed<Operation> {
    var at := "operations[" + IntText(i) + "]";
    if !j.Obj? then Bad(at + " must be an object")
    else if AsStr(Get(j, "sql")).None? then Bad(at + ".sql must be a string")
    else match Get(j, "params")
      case Some(Arr(items)) => Good(Operation(j.fields["sql"].s, items))
      case Some(Null) => Good(Operation(j.fields["sql"].s, []))
      case None => Good(Operation(j.fields["sql"].s, []))
      case Some(_) => Bad(at + ".params must be an array or absent")
  }

  /** The operations from position `i` on, or the complaint about the first bad one. */
  function ParseOperations(items: seq<Json>, i: nat): Parsed<seq<Operation>>
    requires i <= |items|
    decreases |items| - i
  {
    if i == |items| then Good([])
    else match ParseOperation(items[i], i)
      case Bad(m) => Bad(m)
      case Good(op) =>
        match ParseOperations(items, i + 1)
        case Bad(m) => Bad(m)
        case Good(rest) => Good([op] + rest)
  }

  function RequestIdOf(id: Json, w: World): string {
    match id
    case Str(s) => s
    case Num(n) => IntText(n)
    case Frac(bits) => w.fracText(bits)
    case _ => w.uuid
  }

  function ParseExecute(id: Json, params: Json, w: World): Parsed<WriteRequest> {
    if !params.Obj? then Bad("params must be an object with actor_id and operations")
    else if AsStr(Get(params, "actor_id")).None? then Bad("missing or non-string actor_id in params")
    else match Get(params, "operations")
      case None => Bad("missing operations in params")
      case Some(Arr(items)) =>
        if items == [] then Bad("operations must be a non-empty array")
        else (match ParseOperations(items, 0)
              case Bad(m) => Bad(m)
              case Good(ops) =>
                Good(WriteRequest(RequestIdOf(id, w), AsStr(Get(params, "actor_id")).value,
                                  AsStr(Get(params, "run_id")), AsStr(Get(params, "idempotency_key")), ops)))
      case Some(_) => Bad("operations must be an array")
  }

  function ResultReply(id: Json, result: ExecuteResult): Json {
    match result
    case Replied(r) =>
      if r.status == Committed then
        OkReply(id, Obj(map["status" := Str("committed"),
                            "commit_seq" := if r.commitSeq.Some? then Num(r.commitSeq.value) else Null]))
      else
        ErrReplyData(id, ERR_WRITE_FAILED, if r.error.Some? then r.error.value else "write failed", OrNull(r.error))
    case Overloaded => ErrReply(id, ERR_GATEWAY_OVERLOADED, "gateway overloaded")
    case Closed => ErrReply(id, ERR_GATEWAY_CLOSED, "gateway closed")
    case OtherError(m) => ErrReply(id, ERR_WRITE_FAILED, m)
  }

  function ExecuteReply(id: Json, params: Json, w: World): Json {
    match ParseExecute(id, params, w)
    case Bad(m) => ErrReply(id, ERR_INVALID_PARAMS, m)
    case Good(request) => ResultReply(id, w.execute(request))
  }

  function CheckpointReply(id: Json, result: CheckpointResult): Json {
    match result
    case Checkpointed => OkReply(id, Obj(map["status" := Str("ok")]))
    case CheckpointClosed => ErrReply(id, ERR_WRITE_FAILED, CLOSED_TEXT)
    case CheckpointFailed(m) => ErrReply(id, ERR_WRITE_FAILED, m)
  }

  /** The reply to a well-formed request. */
  function Route(verb: string, id: Json, params: Json, w: World): Json {
    if verb == "execute" then ExecuteReply(id, params, w)
    else if verb == "stats" then OkReply(id, w.stats)
    else if verb == "health" then OkReply(id, Obj(map["status" := Str("ok")]))
    else if verb == "checkpoint" then CheckpointReply(id, w.checkpoint)
    else ErrReply(id, ERR_METHOD_NOT_FOUND, "method not found: " + verb)
  }

  /** One line in, one reply out; None is a line that is not JSON. */
  function Dispatch(line: Option<Json>, w: World): Json {
    if line.None? then ErrReply(Null, ERR_PARSE_ERROR, "parse error")
    else if line.value.Arr? then
      ErrReply(Null, ERR_INVALID_REQUEST, "JSON-RPC batch arrays are not supported; send one request per line")
    else match Decode(line.value)
      case None => ErrReply(Null, ERR_INVALID_REQUEST, "invalid request structure")
      case Some(raw) =>
        if raw.jsonrpc != Some("2.0") then
          ErrReply(raw.id, ERR_INVALID_REQUEST, "missing or invalid \"jsonrpc\" field; must be \"2.0\"")
        else if raw.verb.None? then ErrReply(raw.id, ERR_INVALID_REQUEST, "missing \"method\" field")
        else Route(raw.verb.value, raw.id, raw.params, w)
  }

  /** Section 5 of JSON-RPC 2.0: the reply carries the id of the request, exactly when the request could
      be decoded; otherwise it carries null. */
  lemma IdEcho(j: Json, w: World)
    ensures IdOf(Dispatch(Some(j), w)) == if Decode(j).Some? then IdOf(j) else Null
    ensures IdOf(Dispatch(Some(j), w)) == IdOf(j) <==> Decode(j).Some? || IdOf(j) == Null
  {
    hide Route, ErrReply, IdOf;
    if j.Arr? {
      ErrorId(Null, ERR_INVALID_REQUEST, "JSON-RPC batch arrays are not supported; send one request per line");
    } else if Decode(j).None? {
      ErrorId(Null, ERR_INVALID_REQUEST, "invalid request structure");
    } else {
      var raw := Decode(j).value;
      ErrorId(raw.id, ERR_INVALID_REQUEST, "missing or invalid \"jsonrpc\" field; must be \"2.0\"");
      ErrorId(raw.id, ERR_INVALID_REQUEST, "missing \"method\" field");
      if raw.verb.Some? {
        RouteEchoes(raw.verb.value, raw.id, raw.params, w);
      }
    }
  }

  lemma ErrorId(id: Json, code: int, message: string)
    ensures IdOf(ErrReply(id, code, message)) == id
  {
  }

  lemma RouteEchoes(verb: string, id: Json, params: Json, w: World)
    ensures IdOf(Route(verb, id, params, w)) == id
  {
    hide ExecuteReply, CheckpointReply;
    ExecuteEchoes(id, params, w);
    CheckpointEchoes(id, w.checkpoint);
  }

  lemma CheckpointEchoes(id: Json, result: CheckpointResult)
    ensures IdOf(CheckpointReply(id, result)) == id
    ensures CodeOf(CheckpointReply(id, result)) == if result.Checkpointed? then None else Some(ERR_WRITE_FAILED)
  {
  }

  lemma ExecuteEchoes(id: Json, params: Json, w: World)
    ensures IdOf(ExecuteReply(id, params, w)) == id
  {
    hide ParseExecute;
  }

  function CodeOf(reply: Json): Option<int> {
    if Get(reply, "error").Some? then AsI64(Get(Get(reply, "error").value, "code")) else None
  }

  /** A well-formed version 2.0 request with a method name. */
  predicate IsCall(line: Option<Json>) {
    line.Some? && !line.value.Arr? && Decode(line.value).Some?
    && Decode(line.value).value.jsonrpc == Some("2.0") && Decode(line.value).value.verb.Some?
  }

  function VerbOf(line: Option<Json>): string
    requires IsCall(line)
  {
    Decode(line.value).value.verb.value
  }

  /** The outcome of an execute call, None when its parameters are rejected. */
  function ExecuteOutcome(line: Option<Json>, w: World): Option<ExecuteResult>
    requires IsCall(line)
  {
    var raw := Decode(line.value).value;
    match ParseExecute(raw.id, raw.params, w)
    case Bad(_) => None
    case Good(request) => Some(w.execute(request))
  }

  /** The situations of code -32000: a write answered Failed, an error of execute other than overload and
      closing, and any failing checkpoint. */
  predicate WriteFailed(line: Option<Json>, w: World)
    requires IsCall(line)
  {
    if VerbOf(line) == "execute" then
      match ExecuteOutcome(line, w)
      case Some(Replied(r)) => r.status == Failed
      case Some(OtherError(_)) => true
      case _ => false
    else VerbOf(line) == "checkpoint" && !w.checkpoint.Checkpointed?
  }

  /** Exactly when each error code arises. */
  lemma ErrorCodes(line: Option<Json>, w: World)
    ensures var code := CodeOf(Dispatch(line, w));
            && (code == Some(-32700) <==> line.None?)
            && (code == Some(-32600) <==> line.Some? && !IsCall(line))
            && (code == Some(-32601) <==>
                  IsCall(line) && VerbOf(line) !in ["execute", "stats", "health", "checkpoint"])
            && (code == Some(-32602) <==>
                  IsCall(line) && VerbOf(line) == "execute" && ExecuteOutcome(line, w).None?)
            && (code == Some(-32001) <==>
                  IsCall(line) && VerbOf(line) == "execute" && ExecuteOutcome(line, w) == Some(Overloaded))
            && (code == Some(-32002) <==>
                  IsCall(line) && VerbOf(line) == "execute" && ExecuteOutcome(line, w) == Some(Closed))
            && (code == Some(-32000) <==> IsCall(line) && WriteFailed(line, w))
  {
    hide Dispatch, CodeOf;
    if !IsCall(line) {
      UndecodedCodes(line, w);
    } else if VerbOf(line) == "execute" {
      ExecuteCodes(line, w);
    } else {
      OtherCodes(line, w);
    }
  }

  /** The documentation gives -32002 to every request that meets a stopped writer. With a stopped writer
      the code is -32002 for a well-formed execute, and -32000 for a checkpoint. */
  lemma StoppedWriterCodes(line: Option<Json>, w: World)
    requires IsCall(line) && w.checkpoint.CheckpointClosed?
    requires VerbOf(line) == "checkpoint" || (VerbOf(line) == "execute" && ExecuteOutcome(line, w) == Some(Closed))
    ensures CodeOf(Dispatch(line, w)) == Some(ERR_GATEWAY_CLOSED) <==> VerbOf(line) != "checkpoint"
    ensures CodeOf(Dispatch(line, w)) == Some(ERR_WRITE_FAILED) <==> VerbOf(line) == "checkpoint"
  {
    hide Dispatch, CodeOf, Decode, ParseExecute;
    ErrorCodes(line, w);
  }

  /** The request that shows the difference. */
  lemma ClosedCheckpoint(id: Json, w: World)
    requires w.checkpoint.CheckpointClosed?
    ensures var line := Obj(map["jsonrpc" := Str("2.0"), "id" := id, "method" := Str("checkpoint")]);
            && Dispatch(Some(line), w) == ErrReply(id, ERR_WRITE_FAILED, CLOSED_TEXT)
            && CodeOf(Dispatch(Some(line), w)) == Some(ERR_WRITE_FAILED)
  {
    var line := Obj(map["jsonrpc" := Str("2.0"), "id" := id, "method" := Str("checkpoint")]);
    assert Decode(line) == Some(RawRequest(Some("2.0"), id, Some("checkpoint"), Null));
  }

  lemma UndecodedCodes(line: Option<Json>, w: World)
    requires !IsCall(line)
    ensures CodeOf(Dispatch(line, w)) == Some(if line.None? then ERR_PARSE_ERROR else ERR_INVALID_REQUEST)
  {
    hide Decode, Route, ErrReply, CodeOf;
    if line.None? {
      ErrorCode(Null, ERR_PARSE_ERROR, "parse error");
    } else if line.value.Arr? {
      ErrorCode(Null, ERR_INVALID_REQUEST, "JSON-RPC batch arrays are not supported; send one request per line");
    } else if Decode(line.value).None? {
      ErrorCode(Null, ERR_INVALID_REQUEST, "invalid request structure");
    } else {
      var id := Decode(line.value).value.id;
      ErrorCode(id, ERR_INVALID_REQUEST, "missing or invalid \"jsonrpc\" field; must be \"2.0\"");
      ErrorCode(id, ERR_INVALID_REQUEST, "missing \"method\" field");
    }
  }

  lemma ErrorCode(id: Json, code: int, message: string)
    requires -0x8000 <= code <= 0
    ensures CodeOf(ErrReply(id, code, message)) == Some(code)
  {
  }

  lemma OtherCodes(line: Option<Json>, w: World)
    requires IsCall(line) && VerbOf(line) != "execute"
    ensures CodeOf(Dispatch(line, w)) ==
            if VerbOf(line) !in ["stats", "health", "checkpoint"] then Some(ERR_METHOD_NOT_FOUND)
            else if VerbOf(line) == "checkpoint" && !w.checkpoint.Checkpointed? then Some(ERR_WRITE_FAILED)
            else None
  {
    hide Decode, ExecuteReply, CheckpointReply;
    CheckpointEchoes(Decode(line.value).value.id, w.checkpoint);
  }

  lemma ExecuteCodes(line: Option<Json>, w: World)
    requires IsCall(line) && VerbOf(line) == "execute"
    ensures CodeOf(Dispatch(line, w)) ==
            match ExecuteOutcome(line, w)
            case None => Some(ERR_INVALID_PARAMS)
            case Some(Overloaded) => Some(ERR_GATEWAY_OVERLOADED)
            case Some(Closed) => Some(ERR_GATEWAY_CLOSED)
            case Some(OtherError(_)) => Some(ERR_WRITE_FAILED)
            case Some(Replied(r)) => if r.status == Committed then None else Some(ERR_WRITE_FAILED)
  {
    hide Decode, ParseExecute, ResultReply;
    var raw := Decode(line.value).value;
    match ParseExecute(raw.id, raw.params, w)
    case Bad(_) =>
    case Good(request) => ResultCodes(raw.id, w.execute(request));
  }

  lemma ResultCodes(id: Json, result: ExecuteResult)
    ensures var code := CodeOf(ResultReply(id, result));
            match result
            case Overloaded => code == Some(ERR_GATEWAY_OVERLOADED)
            case Closed => code == Some(ERR_GATEWAY_CLOSED)
            case OtherError(_) => code == Some(ERR_WRITE_FAILED)
            case Replied(r) => code == if r.status == Committed then None else Some(ERR_WRITE_FAILED)
  {
  }

  // ---- The Rust client ----

  function OperationJson(op: Operation): Json {
    Obj(map["sql" := Str(op.sql), "params" := Arr(op.params)])
  }

  function OperationsJson(ops: seq<Operation>): seq<Json> {
    seq(|ops|, i requires 0 <= i < |ops| => OperationJson(ops[i]))
  }

  function ParamsJson(request: WriteRequest): Json {
    Obj(map["actor_id" := Str(request.actorId),
            "run_id" := OrNull(request.runId),
            "idempotency_key" := OrNull(request.idempotencyKey),
            "operations" := Arr(OperationsJson(request.operations))])
  }

  function Envelope(request: WriteRequest): Json {
    Obj(map["jsonrpc" := Str("2.0"), "id" := Str(request.requestId), "method" := Str("execute"),
            "params" := ParamsJson(request)])
  }

  /** Bad is the client's protocol error. */
  function ReadReply(request: WriteRequest, reply: Json): Parsed<WriteResponse> {
    if Get(reply, "result").Some? then
      var result := Get(reply, "result").value;
      var status := if AsStr(Get(result, "status")) == Some("committed") then Committed else Failed;
      Good(WriteResponse(request.requestId, status, AsI64(Get(result, "commit_seq")), None))
    else if Get(reply, "error").Some? then
      var err := Get(reply, "error").value;
      var message := if AsStr(Get(err, "message")).Some? then AsStr(Get(err, "message")) else AsStr(Get(err, "data"));
      Good(WriteResponse(request.requestId, Failed, None, message))
    else Bad("unexpected JSON-RPC response")
  }

  lemma {:induction false} OperationsRoundTrip(ops: seq<Operation>, i: nat)
    requires i <= |ops|
    ensures ParseOperations(OperationsJson(ops), i) == Good(ops[i..])
    decreases |ops| - i
  {
    if i < |ops| {
      OperationsRoundTrip(ops, i + 1);
      assert OperationsJson(ops)[i] == OperationJson(ops[i]);
      assert ParseOperation(OperationJson(ops[i]), i) == Good(ops[i]);
      assert ops[i..] == [ops[i]] + ops[i + 1..];
    } else {
      assert ops[i..] == [];
    }
  }

  /** The dispatcher rebuilds from the client's envelope exactly the request it was printed from, absent
      run id and key included, if and only if the request has operations. */
  lemma EnvelopeRoundTrip(request: WriteRequest, w: World)
    ensures Decode(Envelope(request)) ==
            Some(RawRequest(Some("2.0"), Str(request.requestId), Some("execute"), ParamsJson(request)))
    ensures ParseExecute(Str(request.requestId), ParamsJson(request), w) == Good(request) <==> request.operations != []
    ensures request.operations == [] ==>
              Dispatch(Some(Envelope(request)), w) ==
              ErrReply(Str(request.requestId), ERR_INVALID_PARAMS, "operations must be a non-empty array")
  {
    hide ParseOperations, OperationsJson;
    OperationsRoundTrip(request.operations, 0);
    assert request.operations[0..] == request.operations;
    NoOperations(request.operations);
  }

  lemma NoOperations(ops: seq<Operation>)
    ensures OperationsJson(ops) == [] <==> ops == []
  {
  }

  /** The params object of the Node client: an absent run id or key is left out altogether. */
  function SparseParams(request: WriteRequest): Json {
    var base := map["actor_id" := Str(request.actorId), "operations" := Arr(OperationsJson(request.operations))];
    var named := if request.runId.Some? then base["run_id" := Str(request.runId.value)] else base;
    Obj(if request.idempotencyKey.Some? then named["idempotency_key" := Str(request.idempotencyKey.value)] else named)
  }

  /** Leaving the optional fields out means the same to the dispatcher as printing them as null. */
  lemma SparseParamsRoundTrip(request: WriteRequest, id: Json, w: World)
    ensures ParseExecute(id, SparseParams(request), w) == ParseExecute(id, ParamsJson(request), w)
    ensures ParseExecute(id, SparseParams(request), w) == Good(request.(requestId := RequestIdOf(id, w))) <==>
            request.operations != []
  {
    hide ParseOperations, OperationsJson, SparseParams;
    SparseFields(request);
    OperationsRoundTrip(request.operations, 0);
    assert request.operations[0..] == request.operations;
    NoOperations(request.operations);
  }

  lemma SparseFields(request: WriteRequest)
    ensures var j := SparseParams(request);
            && j.Obj?
            && Get(j, "actor_id") == Some(Str(request.actorId))
            && AsStr(Get(j, "run_id")) == request.runId
            && AsStr(Get(j, "idempotency_key")) == request.idempotencyKey
            && Get(j, "operations") == Some(Arr(OperationsJson(request.operations)))
  {
  }

  /** A response as the writer builds it, with a commit number that fits i64. */
  predicate Proper(r: WriteResponse) {
    if r.status == Committed then
      r.error.None? && (r.commitSeq.Some? ==> -0x8000_0000_0000_0000 <= r.commitSeq.value <= 0x7fff_ffff_ffff_ffff)
    else r.error.Some? && r.commitSeq.None?
  }

  /** The client reads back status, commit number and error of any response; the request id it reports
      is its own, so a replay is recovered whole exactly when the client kept its request id. */
  lemma ReplyRoundTrip(request: WriteRequest, id: Json, r: WriteResponse)
    requires Proper(r)
    ensures ReadReply(request, ResultReply(id, Replied(r))) == Good(r.(requestId := request.requestId))
    ensures ReadReply(request, ResultReply(id, Replied(r))) == Good(r) <==> r.requestId == request.requestId
  {
  }

  /** From the client's request to the client's response through the dispatcher. */
  lemma ExecuteEndToEnd(request: WriteRequest, w: World, r: WriteResponse)
    requires request.operations != [] && w.execute(request) == Replied(r) && Proper(r)
    ensures ReadReply(request, Dispatch(Some(Envelope(request)), w)) == Good(r.(requestId := request.requestId))
  {
    EnvelopeRoundTrip(request, w);
    ReplyRoundTrip(request, Str(request.requestId), r);
  }

  // ---- dispatch_execute with its counters ----

  class Stats {
    var accepted: nat
    var committed: nat
    var failed: nat
    var rejected: nat

    constructor ()
      ensures accepted == committed == failed == rejected == 0
    {
      accepted, committed, failed, rejected := 0, 0, 0, 0;
    }
  }

  method ReadOperations(items: seq<Json>) returns (parsed: Parsed<seq<Operation>>)
    ensures parsed == ParseOperations(items, 0)
  {
    var ops: seq<Operation> := [];
    var i := 0;
    ghost var all := ParseOperations(items, 0);
    assert all.Good? ==> [] + all.value == all.value;
    while i < |items|
      invariant i <= |items|
      invariant match ParseOperations(items, i)
                case Bad(m) => ParseOperations(items, 0) == Bad(m)
                case Good(rest) => ParseOperations(items, 0) == Good(ops + rest)
    {
      match ParseOperation(items[i], i)
      case Bad(m) =>
        return Bad(m);
      case Good(op) =>
        ghost var rest := ParseOperations(items, i + 1);
        assert rest.Good? ==> ops + ([op] + rest.value) == ops + [op] + rest.value;
        ops := ops + [op];
        i := i + 1;
    }
    assert ops + [] == ops;
    return Good(ops);
  }

  /** Past the parameter checks `accepted` and exactly one outcome counter go up by one; before them nothing does. */
  method DispatchExecute(id: Json, params: Json, w: World, stats: Stats) returns (reply: Json)
    modifies stats
    ensures reply == ExecuteReply(id, params, w)
    ensures var p := ParseExecute(id, params, w);
            if p.Bad? then unchanged(stats)
            else
              var result := w.execute(p.value);
              && stats.accepted == old(stats.accepted) + 1
              && stats.committed == old(stats.committed) +
                   (if result.Replied? && result.response.status == Committed then 1 else 0)
              && stats.rejected == old(stats.rejected) + (if result.Overloaded? || result.Closed? then 1 else 0)
              && stats.accepted - stats.committed - stats.failed - stats.rejected ==
                 old(stats.accepted - stats.committed - stats.failed - stats.rejected)
  {
    if !params.Obj? {
      return ErrReply(id, ERR_INVALID_PARAMS, "params must be an object with actor_id and operations");
    }
    var actor := AsStr(Get(params, "actor_id"));
    if actor.None? {
      return ErrReply(id, ERR_INVALID_PARAMS, "missing or non-string actor_id in params");
    }
    var operations := Get(params, "operations");
    if operations.None? {
      return ErrReply(id, ERR_INVALID_PARAMS, "missing operations in params");
    }
    if !operations.value.Arr? {
      return ErrReply(id, ERR_INVALID_PARAMS, "operations must be an array");
    }
    if operations.value.items == [] {
      return ErrReply(id, ERR_INVALID_PARAMS, "operations must be a non-empty array");
    }
    var ops := ReadOperations(operations.value.items);
    if ops.Bad? {
      return ErrReply(id, ERR_INVALID_PARAMS, ops.message);
    }
    var request := WriteRequest(RequestIdOf(id, w), actor.value, AsStr(Get(params, "run_id")),
                                AsStr(Get(params, "idempotency_key")), ops.value);
    stats.accepted := stats.accepted + 1;
    var result := w.execute(request);
    match result {
      case Replied(r) =>
        if r.status == Committed {
          stats.committed := stats.committed + 1;
        } else {
          stats.failed := stats.failed + 1;
        }
      case Overloaded => stats.rejected := stats.rejected + 1;
      case Closed => stats.rejected := stats.rejected + 1;
      case OtherError(_) => stats.failed := stats.failed + 1;
    }
    reply := ResultReply(id, result);
  }
}
