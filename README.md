# Claro tracker: forwarding pipeline and browser rule engine

This project models the two small rule engines of the Claro tracker in Dafny.

- **The collection endpoint** (`collect_event`). It logs the raw event and
  selects the active forwarding rules (`GA4Rule`) that listen to the event
  name. It drops the rules whose `url_contains` is not part of the path. For
  each remaining rule it maps parameters out of the `dataLayer` sub-object
  of the request, adds the two baseline fields `page_location` and
  `engagement_time_msec`, and posts one body
  `{client_id, events: [{name, params}]}` to the analytics sink.
- **The rule listing** (`tracking_rules`). It serves the active browser
  rules (`TrackingRule`), each projected to six fields.
- **The browser script** (`clarotrack.js`). An interceptor on
  `window.dataLayer.push` looks at the first argument of each push. When
  that argument is truthy and has a truthy `event`, the interceptor posts it
  and applies the dynamic rules to it. Every argument, including the later
  ones, is then appended, but later arguments are never posted. `pushEvent` builds
  `{event, ...params}`. `getAid` keeps a visitor id in local storage. The
  scroll handler fires `scroll_depth` once per threshold (25, 50, 75, 100).

JSON values are the datatype `Json.Value`. Both stores are in-memory
sequences. The sink and `fetch` are ghost sequences of posted bodies:
`Views.Backend.posted` and `ClaroTrack.Tracker.outbox`.

The server side is `Views`, in `views.dfy`. Pure specification functions
(`MappedParams`, `Step`, `Drive`, `Collect`) describe what the code does.
The class `Views.Backend` holds the stores, and its methods (`CollectEvent`,
`ForwardRules`, `TrackingRules`) run the loops of the source. Each method is
proved against those functions.

The browser side is `ClaroTrack`, in `clarotrack.dfy`. The class
`ClaroTrack.Tracker` holds `dataLayer`, `dynamicRules`, `firedScroll`, the
stored id and the outbox.

`Wire`, in `wire.dfy`, relates the two sides. The body the script posts is
the body the endpoint reads. The two sides map the same rule differently: the
server omits a key whose source value is null or missing, and keeps the
falsy values `0`, `""` and `false`. The script always emits the key, and
replaces every falsy value with `null`. A numeric source is never found by
the server, whose payload keys are strings. The script reads it as the
property named by its decimal text.

Exceptions on the server path are not caught by the source, so the model
returns them as `Views.Outcome.Raised`. They are:

- `IntegrityError`: a missing `aid`, `event` or `path`, which are NOT NULL columns.
- `AttributeError`: `.get` or `.items` called on a value that is not a dict.
- `TypeError`: `in` applied to a path that is not a string, or a source key that cannot be hashed.
- `SendFailed`: a post that raises. The parameter `failingSend` says which send raises.

A send that raises ends the request. The sends made before it stay made.

## What the endpoint does

- The payload is `data.get('dataLayer', {})`. Parameters come from no other part of the body. Besides `dataLayer`, only `aid`, `event` and `path` are read (`Views.CollectReadsFourFields`).
- Lookup is one top-level key. A dotted source is not followed into nested objects (`Views.DottedSourceIsPlainKey`).
- A missing or null `aid`, `event` or `path` is passed to `Event.objects.create`, which fails with IntegrityError.
- Exceptions from the post are not caught.

The script never calls `loadRules()`, because the call is commented out. The
rule list therefore stays empty and `applyRules` pushes nothing
(`ClaroTrack.NoRulesNoReactions`). `ClaroTrack.Tracker.InstallRules` stands
for the assignment inside `loadRules`, so that the rule engine can be studied.

## Model

| member | source | states |
|---|---|---|
| `Views.SelectedMembers` | tracking/views.py:62-65 | The rule query returns exactly the stored rules that are active and whose `listen_event` equals the event name. |
| `Views.UrlFilter` | tracking/views.py:70-71 | A rule is kept iff `url_contains` is empty or None, or it is a substring of the path. The filter raises TypeError iff `url_contains` is truthy and the path is not a string. |
| `Json.ContainsAt` | tracking/views.py:70 | The substring test holds iff the needle occurs at some offset of the path. |
| `Views.MappedParams` | tracking/views.py:74-78 | The mapping succeeds iff `params_map` is a dict, the payload is a dict whenever the map is non-empty, and no source key is unhashable. It raises AttributeError exactly for a non-dict map, or for a non-dict payload when the map is non-empty. Any other failure is TypeError. |
| `Views.MappedParamsContents` | tracking/views.py:74-78 | An output key is present iff its source key is in the payload with a non-null value. The value is copied unchanged. |
| `Views.MappedParamsKeepsFalsy` | tracking/views.py:76-78 | The falsy non-null values `0`, `""` and `false` are forwarded. |
| `Views.DottedSourceIsPlainKey` | tracking/views.py:76 | For any rule and payload, a source `a.b` is one literal key. When the payload has no top-level key `a.b`, the output key is absent, whatever the payload holds under `a`. |
| `Views.MissingPayloadMapsNothing` | tracking/views.py:51 | A body without `dataLayer` maps against `{}`, so every rule that maps cleanly forwards no mapped parameter. |
| `Views.CollectReadsFourFields` | tracking/views.py:51-59 | Two request bodies that agree, in presence and value, on `aid`, `event`, `path` and `dataLayer` are logged and forwarded identically. No other key of the body is read. |
| `Views.MapParams` | tracking/views.py:74-78 | The mapping loop over `params_map.items()` computes `MappedParams`, including its exceptions. |
| `Views.WithBaselineFields` | tracking/views.py:81-84 | After `update`, the output keys are the mapped keys plus `page_location` and `engagement_time_msec`. These two carry the location and 1, overriding mapped keys of the same names. Every other mapped key is unchanged. |
| `Views.Ga4BodyShape` | tracking/views.py:16-24 | The posted body has exactly the keys `client_id` (the id verbatim) and `events`. `events` holds exactly one event, with `name` the fire event and `params` the parameters or `{}`. |
| `Views.StepPostedBody` | tracking/views.py:69-91 | A rule that passes the URL filter and maps cleanly posts one body. It is addressed to the stored aid and names the fire event. Its params hold exactly the two baseline keys plus every mapped key whose source has a non-null payload value. The baseline keys carry the location and 1. Every other key carries the payload's value. |
| `Views.StepOutcomes` | tracking/views.py:67-91 | One loop pass raises only in the URL filter or in the mapping, and only TypeError or AttributeError. It sends iff the URL filter keeps the rule. |
| `Views.StepCarriesBaseline` | tracking/views.py:80-91 | Every body a loop pass posts is addressed to the stored aid and carries both baseline fields. |
| `Views.DriveDelivers` | tracking/views.py:67-93 | With no exception, the loop makes the sends of the sending passes, in order, and answers `{"status": "ok"}`. |
| `Views.DriveFailingSend` | tracking/views.py:31-39 | If the k-th post raises, the run makes the first k+1 sends of the undisturbed run and ends with the exception. If there is no k-th send, the run is the undisturbed one. |
| `Views.DriveFromSteps` | tracking/views.py:67-93 | A run makes only the calls of its passes. It raises only a pass's exception or a send failure. Its only normal answer is `{"status": "ok"}`. |
| `Views.MatchingMembers` | tracking/views.py:69-71 | The rules kept by the `continue` are exactly those that pass the URL filter. |
| `Views.ForwardSendsOnePerMatch` | tracking/views.py:67-93 | If nothing raises, there is one send per matching rule, in store order, each the call that rule builds. The response is `{"status": "ok"}`. |
| `Views.ForwardFailingSend` | tracking/views.py:86-91 | A failing post cuts the forwarding loop short after the sends before it. It never reorders or alters those sends. |
| `Views.DriveStepError` | tracking/views.py:67-91 | With no failing post, a run whose j-th pass is the first to raise makes exactly the sends of the passes before it and ends with that pass's exception. |
| `Views.ForwardRuleFault` | tracking/views.py:67-91 | When the j-th selected rule is the first whose URL filter or mapping raises, the request makes the sends of the rules before it, in store order, and ends with that rule's exception. |
| `Views.ForwardSentBodies` | tracking/views.py:80-91 | Every posted body carries the stored aid and both baseline fields. The loop never raises IntegrityError. |
| `Views.Collect` | tracking/views.py:47-93 | The insert fails with IntegrityError iff `aid`, `event` or `path` is missing or null. The event is logged iff the insert succeeds, and the logged row holds those three fields verbatim and the user agent. A failed insert sends nothing. |
| `Views.CollectSendsForMatchingRules` | tracking/views.py:47-93 | For a complete request without faults, the event is logged with its fields verbatim and the answer is `{"status": "ok"}`. The i-th send is the call the i-th matching rule builds, in store order. The matching rules are exactly those that are active, listen to exactly the event name and pass the URL filter. |
| `Views.PrepareStep` | tracking/views.py:69-84 | One loop pass up to the send (URL filter, mapping, baseline) computes `Step`. |
| `Views.Backend.SendEventToGa4` | tracking/views.py:13-44 | Appends the body to the posted bodies. The call raises exactly when the network does. |
| `Views.Backend.CollectEvent` | tracking/views.py:47-93 | The event log grows by what `Collect` logs. The posted bodies grow by the bodies of its sends, in order. The result is its outcome. |
| `Views.Backend.ForwardStep` | tracking/views.py:69-91 | One pass of the loop: the pass's step, and one post when it sends. |
| `Views.Backend.ForwardRules` | tracking/views.py:67-93 | The loop over the selected rules posts exactly the sends of `Forward`, in order, and ends with its outcome. |
| `Views.ProjectTrackingRule` | tracking/views.py:101-108 | A listed rule has exactly the six keys `listen_event`, `selector`, `url_contains`, `fire_event`, `params_map` and `custom_js`. Each value is unchanged, with None given as null. |
| `Views.ActiveTrackingMembers` | tracking/views.py:98 | The listing query returns exactly the active tracking rules. |
| `Views.Backend.TrackingRules` | tracking/views.py:96-109 | The listing is the active rules in store order, each projected to its six fields. |
| `ClaroTrack.EventObject` | tracking/static/tracking/clarotrack.js:104-107 | `{event: name, ...params}` has the keys of params plus `event`. Every param is copied. `event` is the param named `event` if there is one, else the name. |
| `ClaroTrack.RuleParamsOfObject` | tracking/static/tracking/clarotrack.js:95-101 | Every key of `params_map` is mapped. Its value is the event's property when that is truthy, and null otherwise. |
| `ClaroTrack.RuleParamsOfFalsy` | tracking/static/tracking/clarotrack.js:96 | An absent, null or otherwise falsy `params_map` maps nothing. |
| `ClaroTrack.MapRuleParams` | tracking/static/tracking/clarotrack.js:95-101 | The guarded mapping computes `RuleParams`. |
| `ClaroTrack.ForInParams` | tracking/static/tracking/clarotrack.js:97-100 | The `for...in` loop maps every entry of `params_map` to `eventData[prop] \|\| null`. |
| `ClaroTrack.ApplyingMembers` | tracking/static/tracking/clarotrack.js:76-92 | A rule is applied iff it listens to exactly the event name, a truthy `url_contains` is part of the pathname, and a truthy selector finds an element. |
| `ClaroTrack.RuleObjectEvent` | tracking/static/tracking/clarotrack.js:104-107 | A rule pushes its fire event, unless it maps a parameter named `event`, whose value then replaces it. |
| `ClaroTrack.Tracker.ApplyRules` | tracking/static/tracking/clarotrack.js:75-118 | `applyRules` yields one object per applied rule, in rule order: the rule's fire event with its mapped parameters. |
| `ClaroTrack.NoRulesNoReactions` | tracking/static/tracking/clarotrack.js:121-123 | With the empty rule list the script starts with, no push causes a rule reaction. |
| `ClaroTrack.StoredAfter` | tracking/static/tracking/clarotrack.js:7-14 | After `getAid` the store holds the returned id. A stored non-empty id is left as it is. |
| `ClaroTrack.AidSettles` | tracking/static/tracking/clarotrack.js:7-14 | Once `getAid` has run, later calls return the same id and leave the store unchanged, whatever UUID they would draw. |
| `ClaroTrack.Tracker.GetAid` | tracking/static/tracking/clarotrack.js:7-14 | Returns the stored id when it is non-empty. Otherwise it stores the fresh UUID and returns it. |
| `ClaroTrack.Tracker.Send` | tracking/static/tracking/clarotrack.js:19-30 | Posts exactly `{aid, event, path, dataLayer: payload}`, where `aid` is the visitor id. |
| `ClaroTrack.PushSends` | tracking/static/tracking/clarotrack.js:41-47 | A push posts one body iff the interceptor guard holds, and none otherwise. |
| `ClaroTrack.InterceptGuard` | tracking/static/tracking/clarotrack.js:44 | An empty push, a falsy item, or any truthy item (object, array, string, number or `true`) without a truthy `event` property is neither posted nor matched against the rules. |
| `ClaroTrack.Tracker.Push` | tracking/static/tracking/clarotrack.js:40-50 | The patched push always appends all its arguments and returns the new length. It posts and applies the rules only for an intercepted item. |
| `ClaroTrack.PushedIntercepted` | tracking/static/tracking/clarotrack.js:55-57 | `pushEvent` with a non-empty name and no `event` parameter always passes the interceptor guard, under that name. |
| `ClaroTrack.Tracker.PushEvent` | tracking/static/tracking/clarotrack.js:55-57 | Pushes exactly `{event: name, ...params}` through the interceptor. |
| `ClaroTrack.Tracker.constructor` | tracking/static/tracking/clarotrack.js:35 | The script starts with the page's `dataLayer` or an empty one, no rules, nothing fired, and the stored id as found. |
| `ClaroTrack.Tracker.InstallRules` | tracking/static/tracking/clarotrack.js:66 | The rule list becomes the decoded rules. |
| `ClaroTrack.Fires` | tracking/static/tracking/clarotrack.js:175-180 | One scroll fires exactly the thresholds that are reached and not fired before, in ascending order. |
| `ClaroTrack.FiresIncreasing` | tracking/static/tracking/clarotrack.js:175 | Walking an increasing threshold list fires thresholds in increasing order. |
| `ClaroTrack.ScrollFiresOnce` | tracking/static/tracking/clarotrack.js:167-181 | Over any sequence of scrolls, each threshold fires at most once. A threshold fired earlier never fires again. |
| `ClaroTrack.Tracker.ScrollDepth` | tracking/static/tracking/clarotrack.js:175-180 | The callback for one threshold marks it fired and pushes its `scroll_depth` event iff it is reached and not fired before. |
| `ClaroTrack.Tracker.ThresholdStep` | tracking/static/tracking/clarotrack.js:175-180 | Handling the j-th threshold extends the fired set, the pushes, the posts and the rule reactions from the first j thresholds to the first j+1. |
| `ClaroTrack.Tracker.FireThresholds` | tracking/static/tracking/clarotrack.js:175-180 | The `forEach` over `[25, 50, 75, 100]` pushes exactly the `scroll_depth` events of `Fires`, in order, and adds them to the fired set. |
| `ClaroTrack.Tracker.OnScroll` | tracking/static/tracking/clarotrack.js:167-181 | Each scroll pushes a `scroll` event, then one `scroll_depth` event per newly reached threshold, in ascending order. The fired set only grows. |
| `Wire.SentBodyIsCollected` | tracking/static/tracking/clarotrack.js:23-28 | The endpoint reads the parameters from exactly the pushed item, and logs the visitor id, event name and pathname that the script sent. |
| `Wire.MappingSides` | tracking/views.py:74-78 | For a string source key, the server emits the key iff the value is non-null, and then that value. The script always emits the key, with the value when truthy and null otherwise. |
| `Wire.FalsyValueDiffers` | tracking/static/tracking/clarotrack.js:99 | A falsy non-null source value is forwarded by the server and becomes null in the script. |
| `Wire.NumericSourceDiffers` | tracking/views.py:76 | A numeric source key is never found by the server, so the output key is absent. The script reads the property named by the number's decimal text and forwards its truthy value. |

## Left out

- The HTTP post to the sink (tracking/views.py:26-44) is modelled only as an appended body and a possible exception. The URL, credentials, 3-second timeout, `print` logging and the returned status code are left out.
- Django ORM storage is modelled as in-memory sequences in store order. This leaves out `created_at`, the `utm_*` columns, `CharField` length limits (a database error on an overlong value) and database collation in the `listen_event` comparison. `Models.Event` holds `aid`, `event` and `path` as they are handed to `Event.objects.create`. The `CharField` columns would store `str()` of a non-string value, for example `"5"` for `5` and `"True"` for `true`.
- A JSON request body that is not an object (an array, string, number or null) is left out: `request.data.get` would raise AttributeError. The model takes the body as a map. A form-encoded or multipart body is a map of string values, with the last value of each key, so it is covered by the same map. Its `dataLayer` is then a string or the `{}` default.
- Views.Backend.CollectEvent: requires the `event` and `path` fields to be scalars. Python's `str()` of a list or dict, used by the rule query and the f-string, is not modelled.
- Views.Collect: requires scalar `event` and `path` fields, for the same reason.
- Views.CollectSendsForMatchingRules: states the one-send-per-matching-rule result only for runs in which no rule raises and no post fails. `Views.ForwardRuleFault` covers runs in which a rule raises. `Views.ForwardFailingSend` covers runs in which a post fails. `Views.ForwardSentBodies` covers every run.
- JSON numbers are integers. Floating-point values and object key order are not modelled. Objects are maps, so dict iteration order is immaterial.
- DOM and browser APIs are left out or passed as parameters. Event listeners are left out. The page-event, click, input, keyboard, media, touch, network and visibility handlers are left out; each only calls `pushEvent` with DOM-derived values. `IntersectionObserver` and `fetch` are left out. `localStorage` is the field `storedAid`. `crypto.randomUUID()` is the parameter `uuid`. `location.pathname` is the parameter `pathname`.
- The selector filter (tracking/static/tracking/clarotrack.js:84-92) is the parameter `found`, which says whether `querySelector` finds an element. `match_id` and `match_text` are never served by the rule listing, so an element found is enough.
- `custom_js` execution through `new Function` (tracking/static/tracking/clarotrack.js:110-116) is dynamic code evaluation and is left out.
- The scroll percentage (tracking/static/tracking/clarotrack.js:169-171) is floating-point division and `Math.round`. The model takes `percent` as an integer.
- ClaroTrack.Tracker.ApplyRules: returns the objects it would push instead of pushing them back through the interceptor. The re-entrant push and its nested rule reactions are not modelled. With rules loaded, a rule that matches its own fire event, or a cycle of rules, would make the script re-enter the interceptor without bound, posting at each level, until a RangeError ends the push before the item is appended. `ClaroTrack.Tracker.Push` always appends only because the script never loads rules. In the script those pushes happen inside the interceptor, before the item itself is appended. Pushing the returned objects afterwards would put them after the item in `dataLayer` and change the returned length.
- ClaroTrack.Tracker.OnScroll: returns the rule reactions of its pushes instead of pushing them, for the same reason.
- `loadRules` (tracking/static/tracking/clarotrack.js:63-70) is never called by the script. Its fetch and error logging are left out. The assignment of the decoded rules is `ClaroTrack.Tracker.InstallRules`.
- Strings are sequences of characters. JavaScript indexes strings and counts their `length` in UTF-16 code units, so a character outside the Basic Multilingual Plane is one property of a spread string here and two in the script. This affects `ClaroTrack.OwnEntries` and `ClaroTrack.Prop` on strings, which are reachable through `track(name, "<string>")`.
- `ClaroTrack.JsString` writes every integer in positional notation. `String(n)` switches to exponent notation for |n| >= 1e21, which is not modelled.
- JavaScript values are JSON values. There is no `undefined` (an absent property is `None`), no function, and no property inherited from `Object.prototype`. A `for...in` over a prototype-extended object, or a source name such as `toString`, is not modelled.
- The admin configuration, URL routing and the rule-seeding command are not part of this model.
