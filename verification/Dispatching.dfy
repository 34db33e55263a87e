/** What the dispatcher accepts and answers, and what the Rust client makes of it, on the JSON fields alone. */
module Dispatching {
  import opened Basics
  import opened Requests
  import opened Rpc

  // ---- Requests coming in ----

  /** A line is a call if and only if it is an object with "jsonrpc": "2.0" and a textual "method". Its id
      and its parameters are what the object holds, null if absent. */
  lemma CallIff(line: Option<Json>)
    ensures IsCall(line) <==>
            && line.Some? && line.value.Obj?
            && "jsonrpc" in line.value.fields && line.value.fields["jsonrpc"] == Str("2.0")
            && "method" in line.value.fields && line.value.fields["method"].Str?
    ensures IsCall(line) ==>
              var fields, raw := line.value.fields, Decode(line.value).value;
              && raw.verb == Some(fields["method"].s)
              && raw.id == (if "id" in fields then fields["id"] else Null)
              && raw.params == (if "params" in fields then fields["params"] else Null)
  {
  }

  /** One element of "operations". */
  lemma OperationIff(j: Json, i: nat)
    ensures ParseOperation(j, i).Good? <==>
            && j.Obj? && "sql" in j.fields && j.fields["sql"].Str?
            && ("params" in j.fields ==> j.fields["params"].Null? || j.fields["params"].Arr?)
    ensures ParseOperation(j, i).Good? ==>
              var op := ParseOperation(j, i).value;
              && op.sql == j.fields["sql"].s
              && op.params ==
                 if "params" in j.fields && j.fields["params"].Arr? then j.fields["params"].items else []
    ensures ParseOperation(j, i).Bad? ==>
              ParseOperation(j, i).message ==
              "operations[" + IntText(i) + "]" +
              if !j.Obj? then " must be an object"
              else if "sql" !in j.fields || !j.fields["sql"].Str? then ".sql must be a string"
              else ".params must be an array or absent"
  {
    var at := "operations[" + IntText(i) + "]";
  }

  /** All elements of "operations", or the complaint about the first bad one. */
  lemma {:induction false} OperationsIff(items: seq<Json>, i: nat)
    requires i <= |items|
    ensures ParseOperations(items, i).Good? <==> forall k :: i <= k < |items| ==> ParseOperation(items[k], k).Good?
    ensures ParseOperations(items, i).Good? ==>
              && |ParseOperations(items, i).value| == |items| - i
              && forall k :: i <= k < |items| ==>
                   ParseOperation(items[k], k) == Good(ParseOperations(items, i).value[k - i])
    ensures ParseOperations(items, i).Bad? ==>
              exists k :: i <= k < |items| && ParseOperation(items[k], k) == Bad(ParseOperations(items, i).message)
                && forall j :: i <= j < k ==> ParseOperation(items[j], j).Good?
    decreases |items| - i
  {
    hide ParseOperation;
    if i < |items| {
      OperationsIff(items, i + 1);
      if ParseOperation(items[i], i).Good? && ParseOperations(items, i + 1).Good? {
        var op, rest := ParseOperation(items[i], i).value, ParseOperations(items, i + 1).value;
        forall k | i <= k < |items| ensures ParseOperation(items[k], k) == Good(([op] + rest)[k - i]) {
          if k > i {
            assert ([op] + rest)[k - i] == rest[k - (i + 1)];
          }
        }
      }
    }
  }

  /** The parameters of an execute call are accepted if and only if they are an object with a textual
      "actor_id" and a non-empty array "operations", each of them an object with a textual "sql" and
      "params" absent, null or an array. */
  lemma AcceptedIff(id: Json, params: Json, w: World)
    ensures ParseExecute(id, params, w).Good? <==>
            && params.Obj?
            && "actor_id" in params.fields && params.fields["actor_id"].Str?
            && "operations" in params.fields && params.fields["operations"].Arr?
            && params.fields["operations"].items != []
            && forall k :: 0 <= k < |params.fields["operations"].items| ==>
                 var j := params.fields["operations"].items[k];
                 && j.Obj? && "sql" in j.fields && j.fields["sql"].Str?
                 && ("params" in j.fields ==> j.fields["params"].Null? || j.fields["params"].Arr?)
  {
    hide ParseOperations, ParseOperation;
    if params.Obj? && Get(params, "operations").Some? && Get(params, "operations").value.Arr? {
      var items := params.fields["operations"].items;
      OperationsIff(items, 0);
      forall k | 0 <= k < |items|
        ensures ParseOperation(items[k], k).Good? <==>
                && items[k].Obj? && "sql" in items[k].fields && items[k].fields["sql"].Str?
                && ("params" in items[k].fields ==>
                      items[k].fields["params"].Null? || items[k].fields["params"].Arr?)
      {
        OperationIff(items[k], k);
      }
    }
  }

  /** What a refused call is told: about the first thing that is wrong, in the order of the checks. */
  lemma RefusedWith(id: Json, params: Json, w: World)
    requires ParseExecute(id, params, w).Bad?
    ensures var told := ParseExecute(id, params, w).message;
            if !params.Obj? then told == "params must be an object with actor_id and operations"
            else if "actor_id" !in params.fields || !params.fields["actor_id"].Str? then
              told == "missing or non-string actor_id in params"
            else if "operations" !in params.fields then told == "missing operations in params"
            else if !params.fields["operations"].Arr? then told == "operations must be an array"
            else
              var items := params.fields["operations"].items;
              if items == [] then told == "operations must be a non-empty array"
              else (exists k :: 0 <= k < |items| && ParseOperation(items[k], k) == Bad(told)
                      && forall j :: 0 <= j < k ==> ParseOperation(items[j], j).Good?)
  {
    hide ParseOperations, ParseOperation;
    if params.Obj? && Get(params, "operations").Some? && Get(params, "operations").value.Arr? {
      OperationsIff(params.fields["operations"].items, 0);
    }
  }

  /** What an accepted call becomes: operation by operation, absent and null parameters being none; run id
      and key only if they are text; the request id from the id of the call. */
  lemma AcceptedRequest(id: Json, params: Json, w: World)
    requires ParseExecute(id, params, w).Good?
    ensures params.Obj? && "actor_id" in params.fields && params.fields["actor_id"].Str?
    ensures "operations" in params.fields && params.fields["operations"].Arr?
    ensures var request, fields := ParseExecute(id, params, w).value, params.fields;
            var items := fields["operations"].items;
            && request.actorId == fields["actor_id"].s
            && request.runId == (if "run_id" in fields && fields["run_id"].Str? then Some(fields["run_id"].s) else None)
            && request.idempotencyKey ==
               (if "idempotency_key" in fields && fields["idempotency_key"].Str?
                then Some(fields["idempotency_key"].s) else None)
            && request.requestId ==
               (match id
                case Str(s) => s
                case Num(n) => IntText(n)
                case Frac(bits) => w.fracText(bits)
                case _ => w.uuid)
            && |request.operations| == |items|
            && forall k :: 0 <= k < |items| ==>
                 && items[k].Obj? && "sql" in items[k].fields && items[k].fields["sql"].Str?
                 && request.operations[k].sql == items[k].fields["sql"].s
                 && request.operations[k].params ==
                    if "params" in items[k].fields && items[k].fields["params"].Arr?
                    then items[k].fields["params"].items else []
  {
    hide ParseOperations, ParseOperation, IntText;
    var items := params.fields["operations"].items;
    var ops := ParseExecute(id, params, w).value.operations;
    OperationsIff(items, 0);
    forall k | 0 <= k < |items|
      ensures items[k].Obj? && "sql" in items[k].fields && items[k].fields["sql"].Str?
      ensures ops[k].sql == items[k].fields["sql"].s
      ensures ops[k].params ==
              if "params" in items[k].fields && items[k].fields["params"].Arr?
              then items[k].fields["params"].items else []
    {
      OperationIff(items[k], k);
      assert ParseOperation(items[k], k) == Good(ops[k - 0]);
    }
  }

  /** The value of a text of decimal digits. */
  function Value(digits: string): nat
    requires forall i :: 0 <= i < |digits| ==> '0' <= digits[i] <= '9'
  {
    if digits == [] then 0 else 10 * Value(digits[..|digits| - 1]) + (digits[|digits| - 1] as int - '0' as int)
  }

  /** Numbers are printed in decimal without leading zeros. */
  lemma {:induction false} NatTextReads(n: nat)
    ensures NatText(n) != [] && forall i :: 0 <= i < |NatText(n)| ==> '0' <= NatText(n)[i] <= '9'
    ensures Value(NatText(n)) == n
    ensures n > 0 ==> NatText(n)[0] != '0'
    ensures n == 0 ==> NatText(n) == "0"
  {
    if n >= 10 {
      NatTextReads(n / 10);
      var last := "0123456789"[n % 10];
      assert NatText(n)[..|NatText(n)| - 1] == NatText(n / 10);
      assert last as int - '0' as int == n % 10;
    } else {
      assert NatText(n)[..0] == [];
      assert NatText(n)[0] as int - '0' as int == n;
    }
  }

  lemma IntTextReads(n: int)
    ensures n >= 0 ==> IntText(n) == NatText(n)
    ensures n < 0 ==> IntText(n) == "-" + NatText(-n)
  {
  }

  // ---- Replies going out ----

  /** Section 5 of JSON-RPC 2.0: an object with the version, an id, and either a result or an error with a
      number and a text. */
  ghost predicate WellFormed(reply: Json) {
    && reply.Obj? && "id" in reply.fields
    && "jsonrpc" in reply.fields && reply.fields["jsonrpc"] == Str("2.0")
    && ("result" in reply.fields <==> "error" !in reply.fields)
    && ("error" in reply.fields ==>
          var error := reply.fields["error"];
          error.Obj? && "code" in error.fields && error.fields["code"].Num?
          && "message" in error.fields && error.fields["message"].Str?)
  }

  lemma EveryReplyIsWellFormed(line: Option<Json>, w: World)
    ensures WellFormed(Dispatch(line, w))
  {
    hide ErrReply, WellFormed, Route;
    if line.None? {
      ErrWellFormed(Null, ERR_PARSE_ERROR, "parse error", Null);
    } else if line.value.Arr? {
      ErrWellFormed(Null, ERR_INVALID_REQUEST,
                    "JSON-RPC batch arrays are not supported; send one request per line", Null);
    } else if Decode(line.value).None? {
      ErrWellFormed(Null, ERR_INVALID_REQUEST, "invalid request structure", Null);
    } else {
      var raw := Decode(line.value).value;
      ErrWellFormed(raw.id, ERR_INVALID_REQUEST, "missing or invalid \"jsonrpc\" field; must be \"2.0\"", Null);
      ErrWellFormed(raw.id, ERR_INVALID_REQUEST, "missing \"method\" field", Null);
      if raw.verb.Some? {
        RouteWellFormed(raw.verb.value, raw.id, raw.params, w);
      }
    }
  }

  lemma RouteWellFormed(verb: string, id: Json, params: Json, w: World)
    ensures WellFormed(Route(verb, id, params, w))
  {
    hide ErrReply, OkReply, WellFormed, ExecuteReply;
    var ok := Obj(map["status" := Str("ok")]);
    OkWellFormed(id, ok);
    OkWellFormed(id, w.stats);
    ExecuteWellFormed(id, params, w);
    ErrWellFormed(id, ERR_METHOD_NOT_FOUND, "method not found: " + verb, Null);
    match w.checkpoint
    case Checkpointed =>
    case CheckpointClosed => ErrWellFormed(id, ERR_WRITE_FAILED, CLOSED_TEXT, Null);
    case CheckpointFailed(m) => ErrWellFormed(id, ERR_WRITE_FAILED, m, Null);
  }

  lemma ExecuteWellFormed(id: Json, params: Json, w: World)
    ensures WellFormed(ExecuteReply(id, params, w))
  {
    hide ErrReply, ErrReplyData, WellFormed, ParseExecute;
    match ParseExecute(id, params, w)
    case Bad(m) => ErrWellFormed(id, ERR_INVALID_PARAMS, m, Null);
    case Good(request) =>
      match w.execute(request)
      case Overloaded => ErrWellFormed(id, ERR_GATEWAY_OVERLOADED, "gateway overloaded", Null);
      case Closed => ErrWellFormed(id, ERR_GATEWAY_CLOSED, "gateway closed", Null);
      case OtherError(m) => ErrWellFormed(id, ERR_WRITE_FAILED, m, Null);
      case Replied(r) =>
        ErrWellFormed(id, ERR_WRITE_FAILED, if r.error.Some? then r.error.value else "write failed", OrNull(r.error));
        OkWellFormed(id, Obj(map["status" := Str("committed"),
                                 "commit_seq" := if r.commitSeq.Some? then Num(r.commitSeq.value) else Null]));
  }

  lemma OkWellFormed(id: Json, result: Json)
    ensures WellFormed(OkReply(id, result))
  {
  }

  lemma ErrWellFormed(id: Json, code: int, message: string, data: Json)
    ensures WellFormed(ErrReply(id, code, message)) && WellFormed(ErrReplyData(id, code, message, data))
  {
  }

  /** What is wrong with a line that is no call. */
  lemma ComplaintTexts(line: Option<Json>, w: World)
    requires !IsCall(line)
    ensures var reply := Dispatch(line, w);
            && "error" in reply.fields
            && Get(reply.fields["error"], "message") == Some(Str(
                 if line.None? then "parse error"
                 else if line.value.Arr? then "JSON-RPC batch arrays are not supported; send one request per line"
                 else if Decode(line.value).None? then "invalid request structure"
                 else if Decode(line.value).value.jsonrpc != Some("2.0") then
                   "missing or invalid \"jsonrpc\" field; must be \"2.0\""
                 else "missing \"method\" field"))
  {
    hide Decode, Route;
  }

  /** The structure of a line can be decoded if it is an object whose "jsonrpc" and "method" are text, null or
      absent. */
  lemma DecodedIff(j: Json)
    ensures Decode(j).Some? <==>
            && j.Obj?
            && ("jsonrpc" in j.fields ==> j.fields["jsonrpc"].Null? || j.fields["jsonrpc"].Str?)
            && ("method" in j.fields ==> j.fields["method"].Null? || j.fields["method"].Str?)
    ensures Decode(j).Some? ==>
              (Decode(j).value.jsonrpc == Some("2.0") <==> "jsonrpc" in j.fields && j.fields["jsonrpc"] == Str("2.0"))
  {
  }

  /** The reply to a write that was served. */
  lemma WriteReplies(id: Json, r: WriteResponse)
    ensures r.status == Committed ==>
              ResultReply(id, Replied(r)) ==
              Obj(map["jsonrpc" := Str("2.0"), "id" := id,
                      "result" := Obj(map["status" := Str("committed"),
                                          "commit_seq" := if r.commitSeq.Some? then Num(r.commitSeq.value) else Null])])
    ensures r.status == Failed ==>
              ResultReply(id, Replied(r)) ==
              Obj(map["jsonrpc" := Str("2.0"), "id" := id,
                      "error" := Obj(map["code" := Num(-32000),
                                         "message" := Str(if r.error.Some? then r.error.value else "write failed"),
                                         "data" := if r.error.Some? then Str(r.error.value) else Null])])
  {
  }

  /** The calls that are not writes: what each is answered with. */
  lemma ServiceReplies(line: Option<Json>, w: World)
    requires IsCall(line) && VerbOf(line) != "execute"
    ensures var reply, ok := Dispatch(line, w), Obj(map["status" := Str("ok")]);
            var told := if !reply.Obj? || "error" !in reply.fields then None
                        else AsStr(Get(reply.fields["error"], "message"));
            match VerbOf(line)
            case "stats" => Get(reply, "result") == Some(w.stats)
            case "health" => Get(reply, "result") == Some(ok)
            case "checkpoint" =>
              (match w.checkpoint
               case Checkpointed => Get(reply, "result") == Some(ok)
               case CheckpointClosed => told == Some("gateway is closed")
               case CheckpointFailed(m) => told == Some(m))
            case verb => told == Some("method not found: " + verb)
  {
    hide Decode, ExecuteReply;
  }

  // ---- The client's view ----

  /** What the client makes of a reply that carries an error and no result: a failure, with the message, or
      else the data, if either is text. */
  lemma ErrorReplyRead(request: WriteRequest, reply: Json)
    requires reply.Obj? && "result" !in reply.fields && "error" in reply.fields && reply.fields["error"].Obj?
    ensures var error := reply.fields["error"].fields;
            ReadReply(request, reply) == Good(WriteResponse(request.requestId, Failed, None,
              if "message" in error && error["message"].Str? then Some(error["message"].s)
              else if "data" in error && error["data"].Str? then Some(error["data"].s)
              else None))
  {
  }

  /** What it makes of a reply that carries a result, and of one that carries neither. */
  lemma ResultReplyRead(request: WriteRequest, reply: Json)
    requires reply.Obj?
    ensures "result" in reply.fields && reply.fields["result"].Obj? ==>
              var result, id := reply.fields["result"].fields, request.requestId;
              var committed := "status" in result && result["status"] == Str("committed");
              var number :=
                if "commit_seq" in result && result["commit_seq"].Num? &&
                   -0x8000_0000_0000_0000 <= result["commit_seq"].n <= 0x7fff_ffff_ffff_ffff
                then Some(result["commit_seq"].n) else None;
              ReadReply(request, reply) ==
              Good(WriteResponse(id, if committed then Committed else Failed, number, None))
    ensures "result" !in reply.fields && "error" !in reply.fields ==>
              ReadReply(request, reply) == Bad("unexpected JSON-RPC response")
  {
  }

  /** From the client's request to the client's response, for everything `execute` can come to. */
  lemma ClientSees(request: WriteRequest, w: World)
    ensures var id, seen := request.requestId, ReadReply(request, Dispatch(Some(Envelope(request)), w));
            if request.operations == [] then
              seen == Good(WriteResponse(id, Failed, None, Some("operations must be a non-empty array")))
            else match w.execute(request)
              case Overloaded => seen == Good(WriteResponse(id, Failed, None, Some("gateway overloaded")))
              case Closed => seen == Good(WriteResponse(id, Failed, None, Some("gateway closed")))
              case OtherError(m) => seen == Good(WriteResponse(id, Failed, None, Some(m)))
              case Replied(r) =>
                if r.status == Failed then
                  seen == Good(WriteResponse(id, Failed, None,
                                             Some(if r.error.Some? then r.error.value else "write failed")))
                else
                  var fits := r.commitSeq.Some? &&
                              -0x8000_0000_0000_0000 <= r.commitSeq.value <= 0x7fff_ffff_ffff_ffff;
                  seen == Good(WriteResponse(id, Committed, if fits then r.commitSeq else None, None))
  {
    hide ParseExecute, Envelope, Dispatch, ResultReply, ErrReply, ReadReply;
    EnvelopeRoundTrip(request, w);
    if request.operations == [] {
      ErrorSeen(request, Str(request.requestId), ERR_INVALID_PARAMS, "operations must be a non-empty array", Null);
    } else {
      EnvelopeDispatches(request, w);
      ResultSeen(request, Str(request.requestId), w.execute(request));
    }
  }

  lemma EnvelopeDispatches(request: WriteRequest, w: World)
    requires request.operations != []
    ensures Dispatch(Some(Envelope(request)), w) == ResultReply(Str(request.requestId), w.execute(request))
  {
    hide ParseExecute, ResultReply, Decode;
    EnvelopeRoundTrip(request, w);
  }

  lemma ErrorSeen(request: WriteRequest, id: Json, code: int, message: string, data: Json)
    ensures ReadReply(request, ErrReply(id, code, message)) ==
            Good(WriteResponse(request.requestId, Failed, None, Some(message)))
    ensures ReadReply(request, ErrReplyData(id, code, message, data)) ==
            Good(WriteResponse(request.requestId, Failed, None, Some(message)))
  {
  }

  lemma ResultSeen(request: WriteRequest, id: Json, result: ExecuteResult)
    ensures var seen := ReadReply(request, ResultReply(id, result));
            match result
            case Overloaded => seen == Good(WriteResponse(request.requestId, Failed, None, Some("gateway overloaded")))
            case Closed => seen == Good(WriteResponse(request.requestId, Failed, None, Some("gateway closed")))
            case OtherError(m) => seen == Good(WriteResponse(request.requestId, Failed, None, Some(m)))
            case Replied(r) =>
              if r.status == Failed then
                seen == Good(WriteResponse(request.requestId, Failed, None,
                                           Some(if r.error.Some? then r.error.value else "write failed")))
              else
                var fits := r.commitSeq.Some? &&
                            -0x8000_0000_0000_0000 <= r.commitSeq.value <= 0x7fff_ffff_ffff_ffff;
                seen == Good(WriteResponse(request.requestId, Committed, if fits then r.commitSeq else None, None))
  {
    hide ErrReply, ErrReplyData;
    match result
    case Replied(r) =>
      if r.status == Failed {
        hide ReadReply;
        ErrorSeen(request, id, ERR_WRITE_FAILED, if r.error.Some? then r.error.value else "write failed",
                  OrNull(r.error));
      }
    case Overloaded => ErrorSeen(request, id, ERR_GATEWAY_OVERLOADED, "gateway overloaded", Null);
    case Closed => ErrorSeen(request, id, ERR_GATEWAY_CLOSED, "gateway closed", Null);
    case OtherError(m) => ErrorSeen(request, id, ERR_WRITE_FAILED, m, Null);
  }
}
