# Tier-config automation: the dispatch decision table

This project models the core of `TierConfigAutomation` in the Connect Python SDK.
That class is the automation engine for tier-config requests. A vendor subclasses it
and implements `process_request`. For each pending request, `dispatch` runs that
callback and turns what it returns, or what it raises, into calls to the Connect
API: approve, a parameter update followed by inquire, fail, or no call at all.

The model has these parts:

- `Json` holds the JSON-like values sent to the API.
- `TierConfig` holds the pure specification: the request fields that dispatch reads,
  the callback's behaviour (`Callback`: a `ProcessResult` or a raised `Exc`), the API
  calls (`Action`), and `Dispatch`. `Dispatch` is written as the `try` block
  (`TryBlock`) followed by the ordered `except` clauses (`Handle`). The API is not
  executed: each call is recorded, and what the call returns or raises is an input
  (`Replies`).
- `Automation.TierConfigAutomation` is the class. Its product allow-list is fixed at
  construction. `Filters`, `UpdateParameters` and `Dispatch` are imperative methods:
  they append the calls they issue to `actions` and their warnings to `warnings`.
  Each is proved against the specification functions.
- `ProductFilter` holds the comma-join of the allow-list used in query filters,
  with `str.split(',')` as its partner.
- `TierConfigLemmas` states the guarantees of dispatch over all callbacks and all
  replies.

Three points of the code's control flow that the model makes explicit:

- On the approve path `dispatch` returns '' and not approve's result:
  `self.approve(...)` at line 91 is not returned, and control reaches `return ''` at
  line 111 (`ApproveResultDiscarded`).
- Besides NotImplementedError, an exception raised inside an `except` handler also
  escapes: a failing PUT, an empty PUT response, a failing inquire or a failing fail.
  So does any exception that is not a subclass of `Exception` (`PropagatesIff`).
- An exception raised by approve is inside the `try` block, so it goes through the same
  `except` clauses as one raised by the callback. For example, an `InquireRequest`
  raised by approve leads to a PUT and an inquire after the approve call. This is why
  `Dispatch` allows up to three calls.

## Model

| member | source | states |
|---|---|---|
| `TierConfig.Dispatch` | connect/resources/tier_config_automation.py:67-111 | at most three calls and at most one warning per dispatch; a warning is logged only when dispatch returns '', and it names the request; a propagating dispatch logs nothing; a rejected product gives no call and 'Invalid product' |
| `TierConfig.ApproveParams` | connect/resources/tier_config_automation.py:85-89 | a tile gives `{template: {representation: tile}}`; a template gives `{template: {id: template_id}}`; the parameters are `{}` exactly when the result is neither |
| `TierConfig.Normalised` | connect/resources/tier_config_automation.py:122-124 | the list has the same length and order as the params; each Param object becomes its field mapping and every other item is passed through unchanged |
| `TierConfig.FirstElement` | connect/resources/tier_config_automation.py:126-129 | gives element 0 of the PUT's response; the PUT's own failure is passed on; an empty response raises IndexError ("list index out of range") |
| `Automation.TierConfigAutomation.Filters` | connect/resources/tier_config_automation.py:61-64 | with a non-empty allow-list, the base filters plus `configuration__product__id` set to the comma-join of the products, overriding any value already there; every other key is kept; with an empty allow-list, the base filters unchanged |
| `Automation.TierConfigAutomation.UpdateParameters` | connect/resources/tier_config_automation.py:114-129 | exactly one PUT is recorded, to path `pk` with body `{'params': Normalised(params)}`; the result is element 0 of the response; the loop keeps the list built so far equal to the normalised prefix |
| `Automation.TierConfigAutomation.Dispatch` | connect/resources/tier_config_automation.py:67-111 | appends exactly the calls and warnings of `TierConfig.Dispatch` and returns its outcome |
| `ProductFilter.SplitJoin` | connect/resources/tier_config_automation.py:63 | splitting the comma-joined allow-list on ',' gives back the allow-list, when the list is non-empty and no product id holds a comma |
| `ProductFilter.JoinedFilterAdmits` | connect/resources/tier_config_automation.py:62-63 | for a non-empty allow-list whose product ids hold no comma, a product is listed in the joined filter value exactly when it is in the allow-list, which dispatch checks at lines 73-74 |
| `TierConfigLemmas.InvalidProductRejected` | connect/resources/tier_config_automation.py:73-75 | a product outside a non-empty allow-list gives 'Invalid product' with no call and no warning, whatever the callback and the replies |
| `TierConfigLemmas.FalsyResultDoesNothing` | connect/resources/tier_config_automation.py:81-83 | a falsy result gives '' with no call |
| `TierConfigLemmas.ApproveResultDiscarded` | connect/resources/tier_config_automation.py:85-91 | a truthy result gives one approve call with that result's parameters, and then '' whatever approve returned |
| `TierConfigLemmas.UnrecognisedResultApprovesEmpty` | connect/resources/tier_config_automation.py:85-91 | a truthy result that is neither a tile nor a template still approves, with `{}` |
| `TierConfigLemmas.ApproveIssuedIff` | connect/resources/tier_config_automation.py:79-91 | approve is called with given params exactly when the product is admitted, the result is truthy and the params are that result's; approve is never any call but the first |
| `TierConfigLemmas.InquireSequence` | connect/resources/tier_config_automation.py:93-95 | on InquireRequest, the calls are the PUT of its params and then inquire, in that order, and inquire's result is returned; if the PUT fails, inquire is not called and the failure escapes |
| `TierConfigLemmas.FailSingleCall` | connect/resources/tier_config_automation.py:97-98 | on FailRequest, the only call is fail with str(fail), and its result is returned |
| `TierConfigLemmas.SkipReturnsCode` | connect/resources/tier_config_automation.py:100-101 | on SkipRequest, its code is returned with no call |
| `TierConfigLemmas.NotImplementedPropagates` | connect/resources/tier_config_automation.py:103-104 | NotImplementedError from the callback or from approve always leaves dispatch |
| `TierConfigLemmas.SwallowedIff` | connect/resources/tier_config_automation.py:106-109 | exactly one warning naming the request is logged exactly when another Exception came from the callback or from approve; dispatch then returns '' |
| `TierConfigLemmas.PropagatesIff` | connect/resources/tier_config_automation.py:93-109 | dispatch raises exactly when the exception from the try block is NotImplementedError or a non-Exception, or its handler's own call (PUT, inquire, fail) fails |
| `TierConfigLemmas.NoCallIff` | connect/resources/tier_config_automation.py:73-109 | no API call is made exactly when the product is rejected, the result is falsy, or the callback raised something other than InquireRequest or FailRequest |

## Left out

- The `AutomationEngine` base class is not part of this model. Its `filters` is an input map (`base`). Its `approve`, `inquire` and `fail`, and the polling loop that calls `dispatch`, are recorded calls whose results are inputs.
- HTTP transport and JSON serialisation are left out. A PUT is recorded as its path and body, and its response is an input.
- Logging is left out: `_set_custom_logger`, the `function_log` decorator, and the info messages. The warning on the swallowed path is kept as a (request id, exception text) record without its wording.
- Of the domain classes, only the fields dispatch reads are modelled: the request id and product id, the tile, the template id, and a Param's attribute mapping.
- Attribute errors from a request without configuration, account or product are not modelled (lines 70-74). The model's request always has these ids.
- The text of exceptions is an input string. For FailRequest it is `str(fail)`. The `connect.exceptions` module is not part of this model.
- The ABCMeta machinery is left out. An unimplemented `process_request` is the callback raising NotImplementedError.
