/** The decision logic of `TierConfigAutomation.dispatch` as pure functions.

    One dispatch runs the `try` block of connect/resources/tier_config_automation.py
    (allow-list check, the user's `process_request`, approve) and, when something is
    raised there, the matching `except` handler. Calls to the Connect API are not
    executed: they are recorded as Actions, and what each call returns or raises is
    an input (Replies). */
module TierConfig {
  import Json

  /** The fields of a TierConfigRequest that dispatch reads. */
  datatype Request = Request(id: string, productId: string)

  /** One item of an inquire's parameter list: a Param object (given by its
      attribute mapping, Python's `__dict__`) or any other value, passed on as it is. */
  datatype ParamItem =
    | ParamObject(fields: map<string, Json.Value>)
    | Plain(value: Json.Value)

  /** What `process_request` may raise. InquireRequest, FailRequest and SkipRequest
      are the SDK's control-flow signals; OtherException is any other subclass of
      Exception; BaseException is one that is not an Exception (KeyboardInterrupt,
      SystemExit), which no handler of dispatch catches. */
  datatype Exc =
    | InquireRequest(params: seq<ParamItem>)
    | FailRequest(reason: string)        // reason is str(fail)
    | SkipRequest(code: string)
    | NotImplementedError
    | OtherException(detail: string)
    | BaseException(detail: string)

  /** What `process_request` may return: something falsy (None, ''), an
      ActivationTileResponse, an ActivationTemplateResponse, or any other truthy value. */
  datatype ProcessResult =
    | Falsy
    | TileResponse(tile: string)
    | TemplateResponse(templateId: string)
    | OtherTruthy

  /** The behaviour of the user callback on one request. */
  datatype Callback = Returned(result: ProcessResult) | Raised(exc: Exc)

  /** What a call into the API returns, or what it raises. */
  datatype Reply<T> = Gives(value: T) | Throws(exc: Exc)

  /** The replies that the API would give, one per kind of call. */
  datatype Replies = Replies(
    approve: Reply<string>,
    put: Reply<seq<Json.Value>>,
    inquire: Reply<string>,
    fail: Reply<string>)

  /** A call issued to the Connect API. Put is the request that
      `update_parameters` sends: path and JSON body. */
  datatype Action =
    | Approve(id: string, params: Json.Value)
    | Put(path: string, body: Json.Value)
    | Inquire(id: string)
    | Fail(id: string, reason: string)

  /** The warning logged when an unexpected exception is swallowed. */
  datatype Warning = Warning(requestId: string, detail: string)

  /** How dispatch ends: it returns a string, or an exception leaves it. */
  datatype Outcome = Returns(code: string) | Propagates(exc: Exc)

  /** Everything one dispatch does: the calls in the order issued, the
      warnings logged, and how it ends. */
  datatype Step = Step(actions: seq<Action>, warnings: seq<Warning>, outcome: Outcome)

  const InvalidProduct: string := "Invalid product"

  /** The allow-list check of lines 73-74: an empty list admits every product. */
  predicate Admitted(products: seq<string>, req: Request)
  {
    products == [] || req.productId in products
  }

  function Template(inner: map<string, Json.Value>): (t: Json.Value)
    ensures t.Obj? && t.fields.Keys == {"template"}
  {
    Json.Obj(map["template" := Json.Obj(inner)])
  }

  /** The parameters passed to approve for a truthy result of process_request. */
  function ApproveParams(result: ProcessResult): (params: Json.Value)
    requires !result.Falsy?
    ensures params.Obj?
    ensures params.fields == map[] <==> result.OtherTruthy?
    ensures result.TileResponse? ==>
      params.fields.Keys == {"template"} && params.fields["template"] == Json.Obj(map["representation" := Json.Str(result.tile)])
    ensures result.TemplateResponse? ==>
      params.fields.Keys == {"template"} && params.fields["template"] == Json.Obj(map["id" := Json.Str(result.templateId)])
  {
    match result
    case TileResponse(tile) => Template(map["representation" := Json.Str(tile)])
    case TemplateResponse(id) => Template(map["id" := Json.Str(id)])
    case OtherTruthy => Json.Obj(map[])
  }

  /** One parameter as `update_parameters` sends it (line 124). */
  function Normalise(p: ParamItem): Json.Value
  {
    match p
    case ParamObject(fields) => Json.Obj(fields)
    case Plain(v) => v
  }

  /** The list of plain mappings built from an inquire's parameter list. */
  function Normalised(ps: seq<ParamItem>): (out: seq<Json.Value>)
    ensures |out| == |ps|
    ensures forall i :: 0 <= i < |ps| && ps[i].ParamObject? ==> out[i] == Json.Obj(ps[i].fields)
    ensures forall i :: 0 <= i < |ps| && ps[i].Plain? ==> out[i] == ps[i].value
  {
    if ps == [] then [] else [Normalise(ps[0])] + Normalised(ps[1..])
  }

  /** Extending the parameter list by one item extends its normal form by that item's. */
  lemma NormalisedSnoc(ps: seq<ParamItem>, p: ParamItem)
    ensures Normalised(ps + [p]) == Normalised(ps) + [Normalise(p)]
  {
  }

  /** The JSON body of the PUT of lines 126-129. */
  function ParamsBody(ps: seq<ParamItem>): Json.Value
  {
    Json.Obj(map["params" := Json.Arr(Normalised(ps))])
  }

  /** `response[0]`: the first element of the PUT's response, or the
      IndexError that indexing an empty list raises. */
  function FirstElement(response: Reply<seq<Json.Value>>): (r: Reply<Json.Value>)
    ensures r.Gives? <==> response.Gives? && |response.value| > 0
    ensures r.Gives? ==> r.value == response.value[0]
    ensures response.Throws? ==> r == Throws(response.exc)
    ensures response.Gives? && response.value == [] ==> r == Throws(OtherException("list index out of range"))
  {
    match response
    case Throws(e) => Throws(e)
    case Gives(items) =>
      if |items| == 0 then Throws(OtherException("list index out of range")) else Gives(items[0])
  }

  /** How the `try` block of lines 69-91 is left. */
  datatype TryExit = FellThrough | EarlyReturn(code: string) | Raise(exc: Exc)

  /** The `try` block: the calls it issues and how it is left. */
  function TryBlock(products: seq<string>, req: Request, cb: Callback, approve: Reply<string>)
    : (r: (seq<Action>, TryExit))
  {
    if !Admitted(products, req) then ([], EarlyReturn(InvalidProduct))
    else
      match cb
      case Raised(e) => ([], Raise(e))
      case Returned(result) =>
        if result.Falsy? then ([], EarlyReturn(""))
        else
          var call := [Approve(req.id, ApproveParams(result))];
          match approve
          case Gives(_) => (call, FellThrough)
          case Throws(e) => (call, Raise(e))
  }

  /** The outcome of a handler that ends with `return <call>`. */
  function Returning(reply: Reply<string>): Outcome
  {
    match reply
    case Gives(v) => Returns(v)
    case Throws(e) => Propagates(e)
  }

  /** The `except` clauses of lines 93-109, tried in order on exception e.
      Whatever a handler itself raises leaves dispatch. */
  function Handle(req: Request, e: Exc, replies: Replies): Step
  {
    match e
    case InquireRequest(ps) =>
      var put := Put(req.id, ParamsBody(ps));
      (match FirstElement(replies.put)
       case Throws(x) => Step([put], [], Propagates(x))
       case Gives(_) => Step([put, Inquire(req.id)], [], Returning(replies.inquire)))
    case FailRequest(reason) => Step([Fail(req.id, reason)], [], Returning(replies.fail))
    case SkipRequest(code) => Step([], [], Returns(code))
    case NotImplementedError => Step([], [], Propagates(NotImplementedError))
    case OtherException(detail) => Step([], [Warning(req.id, detail)], Returns(""))
    case BaseException(_) => Step([], [], Propagates(e))
  }

  /** `dispatch(request)` for a callback and API replies. */
  function Dispatch(products: seq<string>, req: Request, cb: Callback, replies: Replies): (r: Step)
    ensures |r.actions| <= 3
    ensures |r.warnings| <= 1
    ensures r.warnings != [] ==> r.outcome == Returns("") && r.warnings == [Warning(req.id, r.warnings[0].detail)]
    ensures r.outcome.Propagates? ==> r.warnings == []
    ensures !Admitted(products, req) ==> r.actions == [] && r.outcome == Returns(InvalidProduct)
  {
    var (calls, exit) := TryBlock(products, req, cb, replies.approve);
    match exit
    case FellThrough => Step(calls, [], Returns(""))
    case EarlyReturn(code) => Step(calls, [], Returns(code))
    case Raise(e) =>
      var h := Handle(req, e, replies);
      Step(calls + h.actions, h.warnings, h.outcome)
  }
}
