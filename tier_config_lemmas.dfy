/** What `TierConfigAutomation.dispatch` guarantees, stated over every callback
    behaviour and every set of API replies. */
module TierConfigLemmas {
  import Json
  import opened TierConfig

  /** Exception e reaches the except clauses: the callback raised it, or it
      returned a truthy result and approve raised it. */
  predicate RaisesInTry(cb: Callback, approve: Reply<string>, e: Exc)
  {
    cb == Raised(e) || (cb.Returned? && !cb.result.Falsy? && approve == Throws(e))
  }

  /** The handler for e lets an exception out of dispatch. */
  predicate Escapes(e: Exc, replies: Replies)
  {
    match e
    case InquireRequest(_) => FirstElement(replies.put).Throws? || replies.inquire.Throws?
    case FailRequest(_) => replies.fail.Throws?
    case SkipRequest(_) => false
    case NotImplementedError => true
    case OtherException(_) => false
    case BaseException(_) => true
  }

  /** A product outside a non-empty allow-list is rejected before the callback
      runs: the step does not depend on the callback or on any reply. */
  lemma InvalidProductRejected(products: seq<string>, req: Request, cb: Callback, replies: Replies)
    requires products != [] && req.productId !in products
    ensures Dispatch(products, req, cb, replies) == Step([], [], Returns(InvalidProduct))
  {
  }

  /** A falsy result of process_request ends dispatch with '' and no call. */
  lemma FalsyResultDoesNothing(products: seq<string>, req: Request, replies: Replies)
    requires Admitted(products, req)
    ensures Dispatch(products, req, Returned(Falsy), replies) == Step([], [], Returns(""))
  {
  }

  /** A truthy result approves once, with parameters chosen by its kind, and
      dispatch returns '' whatever approve returned. */
  lemma ApproveResultDiscarded(products: seq<string>, req: Request, result: ProcessResult, replies: Replies)
    requires Admitted(products, req) && !result.Falsy? && replies.approve.Gives?
    ensures Dispatch(products, req, Returned(result), replies)
         == Step([Approve(req.id, ApproveParams(result))], [], Returns(""))
  {
  }

  /** A truthy result that is neither a tile nor a template still approves, with `{}`. */
  lemma UnrecognisedResultApprovesEmpty(products: seq<string>, req: Request, replies: Replies)
    requires Admitted(products, req)
    ensures Dispatch(products, req, Returned(OtherTruthy), replies).actions[0] == Approve(req.id, Json.Obj(map[]))
  {
  }

  /** Approve is called exactly when the request is admitted and the callback
      returned a truthy result; it is then the first call, issued once, with
      the parameters of that result. */
  lemma ApproveIssuedIff(products: seq<string>, req: Request, cb: Callback, replies: Replies, params: Json.Value)
    ensures var r := Dispatch(products, req, cb, replies);
      Approve(req.id, params) in r.actions
      <==> Admitted(products, req) && cb.Returned? && !cb.result.Falsy? && params == ApproveParams(cb.result)
    ensures var r := Dispatch(products, req, cb, replies);
      forall i :: 0 < i < |r.actions| ==> !r.actions[i].Approve?
  {
  }

  /** An InquireRequest from the callback: first the PUT of its parameters,
      then inquire, whose result dispatch returns. When the PUT fails (or its
      response is empty) inquire is not called and the failure escapes. */
  lemma InquireSequence(products: seq<string>, req: Request, ps: seq<ParamItem>, replies: Replies)
    requires Admitted(products, req)
    ensures var r := Dispatch(products, req, Raised(InquireRequest(ps)), replies);
      r.warnings == [] &&
      (if FirstElement(replies.put).Gives? then
         r.actions == [Put(req.id, ParamsBody(ps)), Inquire(req.id)] && r.outcome == Returning(replies.inquire)
       else
         r.actions == [Put(req.id, ParamsBody(ps))] && r.outcome == Propagates(FirstElement(replies.put).exc))
  {
  }

  /** A FailRequest: one fail call with str(fail), and its result is returned. */
  lemma FailSingleCall(products: seq<string>, req: Request, reason: string, replies: Replies)
    requires Admitted(products, req)
    ensures Dispatch(products, req, Raised(FailRequest(reason)), replies)
         == Step([Fail(req.id, reason)], [], Returning(replies.fail))
  {
  }

  /** A SkipRequest: its code is returned and nothing is called. */
  lemma SkipReturnsCode(products: seq<string>, req: Request, code: string, replies: Replies)
    requires Admitted(products, req)
    ensures Dispatch(products, req, Raised(SkipRequest(code)), replies) == Step([], [], Returns(code))
  {
  }

  /** NotImplementedError always leaves dispatch, whether the callback or
      approve raised it. */
  lemma NotImplementedPropagates(products: seq<string>, req: Request, cb: Callback, replies: Replies)
    requires Admitted(products, req) && RaisesInTry(cb, replies.approve, NotImplementedError)
    ensures Dispatch(products, req, cb, replies).outcome == Propagates(NotImplementedError)
  {
  }

  /** Any other Exception raised by the callback or by approve is swallowed:
      dispatch returns '' and logs exactly one warning naming the request. The
      warning is logged on that path only. */
  lemma SwallowedIff(products: seq<string>, req: Request, cb: Callback, replies: Replies, detail: string)
    ensures var r := Dispatch(products, req, cb, replies);
      r.warnings == [Warning(req.id, detail)]
      <==> Admitted(products, req) && RaisesInTry(cb, replies.approve, OtherException(detail))
    ensures var r := Dispatch(products, req, cb, replies);
      Admitted(products, req) && RaisesInTry(cb, replies.approve, OtherException(detail)) ==> r.outcome == Returns("")
  {
  }

  /** Exactly the exceptions whose handler does not catch them, or whose
      handler's own call fails, leave dispatch: NotImplementedError, a
      BaseException, and failures of the PUT, of inquire or of fail. A failure
      of approve is inside the try and never escapes unless it is one of the
      former. */
  lemma {:induction false} PropagatesIff(products: seq<string>, req: Request, cb: Callback, replies: Replies)
    ensures Dispatch(products, req, cb, replies).outcome.Propagates?
      <==> Admitted(products, req) && exists e :: RaisesInTry(cb, replies.approve, e) && Escapes(e, replies)
  {
    var r := Dispatch(products, req, cb, replies);
    if Admitted(products, req) {
      match cb
      case Raised(e) =>
        assert RaisesInTry(cb, replies.approve, e);
        forall e' | RaisesInTry(cb, replies.approve, e') ensures e' == e { }
      case Returned(result) =>
        if !result.Falsy? && replies.approve.Throws? {
          var e := replies.approve.exc;
          assert RaisesInTry(cb, replies.approve, e);
          forall e' | RaisesInTry(cb, replies.approve, e') ensures e' == e { }
        } else {
          forall e' | RaisesInTry(cb, replies.approve, e') ensures false { }
        }
    }
  }

  /** No call is issued exactly when the request is rejected, the result is
      falsy, or what was raised is handled without a call. */
  lemma NoCallIff(products: seq<string>, req: Request, cb: Callback, replies: Replies)
    ensures Dispatch(products, req, cb, replies).actions == []
      <==> !Admitted(products, req) || cb == Returned(Falsy)
           || (cb.Raised? && !cb.exc.InquireRequest? && !cb.exc.FailRequest?)
  {
  }
}
