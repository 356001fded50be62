/** `TierConfigAutomation`: the automation engine for tier-config requests.

    The configured product allow-list is fixed at construction. The calls the
    engine issues to the Connect API are appended to `actions` and the warnings
    it logs to `warnings`; what the API answers, and what the user's
    `process_request` does, are parameters of each call. */
module Automation {
  import Json
  import opened ProductFilter
  import opened TierConfig

  class TierConfigAutomation {
    const products: seq<string>
    var actions: seq<Action>
    var warnings: seq<Warning>

    constructor (products: seq<string>)
      ensures this.products == products && actions == [] && warnings == []
    {
      this.products := products;
      actions := [];
      warnings := [];
    }

    /** `filters(status, **kwargs)`: the filters the base engine builds (`base`),
        with the product key set to the comma-joined allow-list when there is one. */
    method Filters(base: map<string, Json.Value>) returns (filters: map<string, Json.Value>)
      ensures products == [] ==> filters == base
      ensures products != [] ==> filters.Keys == base.Keys + {ProductKey}
      ensures products != [] ==> filters[ProductKey] == Json.Str(Join(products))
      ensures forall k :: k in base && k != ProductKey ==> k in filters && filters[k] == base[k]
    {
      filters := base;
      if products != [] {
        filters := filters[ProductKey := Json.Str(Join(products))];
      }
    }

    /** `update_parameters(pk, params)`: one PUT to path pk whose body lists the
        parameters as plain mappings; gives element 0 of the response. */
    method UpdateParameters(pk: string, params: seq<ParamItem>, response: Reply<seq<Json.Value>>)
      returns (r: Reply<Json.Value>)
      modifies this`actions
      ensures actions == old(actions) + [Put(pk, ParamsBody(params))]
      ensures r == FirstElement(response)
    {
      var listDict: seq<Json.Value> := [];
      for i := 0 to |params|
        invariant listDict == Normalised(params[..i])
        invariant actions == old(actions)
      {
        var item := match params[i]
          case ParamObject(fields) => Json.Obj(fields)
          case Plain(v) => v;
        listDict := listDict + [item];
        NormalisedSnoc(params[..i], params[i]);
        assert params[..i + 1] == params[..i] + [params[i]];
      }
      assert params[..|params|] == params;
      actions := actions + [Put(pk, Json.Obj(map["params" := Json.Arr(listDict)]))];
      match response
      case Throws(e) => r := Throws(e);
      case Gives(items) =>
        if |items| == 0 {
          r := Throws(OtherException("list index out of range"));
        } else {
          r := Gives(items[0]);
        }
    }

    /** `dispatch(request)`, where `cb` is what `process_request(request)` does
        and `replies` what the API answers to approve, the PUT, inquire and fail. */
    method Dispatch(req: Request, cb: Callback, replies: Replies) returns (out: Outcome)
      modifies this`actions, this`warnings
      ensures actions == old(actions) + TierConfig.Dispatch(products, req, cb, replies).actions
      ensures warnings == old(warnings) + TierConfig.Dispatch(products, req, cb, replies).warnings
      ensures out == TierConfig.Dispatch(products, req, cb, replies).outcome
    {
      // the try block
      var raised: Exc;
      if products != [] && req.productId !in products {
        return Returns(InvalidProduct);
      }
      match cb {
        case Raised(e) =>
          raised := e;
        case Returned(result) =>
          if result.Falsy? {
            return Returns("");
          }
          var params := Json.Obj(map[]);
          if result.TileResponse? {
            params := Json.Obj(map["template" := Json.Obj(map["representation" := Json.Str(result.tile)])]);
          } else if result.TemplateResponse? {
            params := Json.Obj(map["template" := Json.Obj(map["id" := Json.Str(result.templateId)])]);
          }
          actions := actions + [Approve(req.id, params)];
          if replies.approve.Gives? {
            // approve's result is discarded: control reaches the final return
            return Returns("");
          }
          raised := replies.approve.exc;
      }
      // the except clauses, in order
      match raised {
        case InquireRequest(ps) =>
          var first := UpdateParameters(req.id, ps, replies.put);
          if first.Throws? {
            return Propagates(first.exc);
          }
          actions := actions + [Inquire(req.id)];
          out := Returning(replies.inquire);
        case FailRequest(reason) =>
          actions := actions + [Fail(req.id, reason)];
          out := Returning(replies.fail);
        case SkipRequest(code) =>
          out := Returns(code);
        case NotImplementedError =>
          out := Propagates(NotImplementedError);
        case OtherException(detail) =>
          warnings := warnings + [Warning(req.id, detail)];
          out := Returns("");
        case BaseException(_) =>
          out := Propagates(raised);
      }
    }
  }
}
