/**
 * The collection endpoint and the rule listing of the tracking backend.
 *
 * `collect_event` stores the raw event, selects the active forwarding rules
 * for the event name, filters them by URL, maps parameters out of the
 * `dataLayer` sub-object, adds the two baseline fields and sends one body
 * per surviving rule to the analytics sink. Exceptions are not caught
 * anywhere on this path: each one ends the request (an HTTP 500) and
 * leaves the sends already made in place.
 */
module Views {
  import opened Wrappers
  import opened Json
  import opened Models

  /** The exceptions that can end a call of collect_event. */
  datatype PyError =
    | AttributeError  // `.get` or `.items` on a value that is not a dict
    | TypeError       // `in` on a path that is not a string, or an unhashable lookup key
    | IntegrityError  // a NOT NULL column of Event given None
    | SendFailed      // the HTTP post to the sink raised (timeout, refused connection, ...)

  /** How a request ends: a JSON response, or an exception. */
  datatype Outcome = Completed(body: Value) | Raised(error: PyError)

  const StatusOk: Value := Obj(map["status" := Str("ok")])

  const PageLocationKey := "page_location"
  const EngagementKey := "engagement_time_msec"

  /** Python's `str()` of a JSON scalar (a decoded JSON number is an int here). */
  function PyStr(v: Value): string
    requires !IsContainer(v)
  {
    match v
    case Null => "None"
    case Bool(b) => if b then "True" else "False"
    case Num(n) => IntToString(n)
    case Str(s) => s
  }

  // ---------------------------------------------------------------------
  // Payload selection
  // ---------------------------------------------------------------------

  /** `data.get('dataLayer', {})`: the only part of the body parameters are read from. */
  function SelectPayload(data: map<string, Value>): Value {
    Get(data, "dataLayer", Obj(map[]))
  }

  // ---------------------------------------------------------------------
  // Rule matching
  // ---------------------------------------------------------------------

  /**
   * `GA4Rule.objects.filter(listen_event=..., active=True)`, in store order.
   * The lookup value is the text the ORM compares with the column.
   */
  function Selected(rules: seq<GA4Rule>, eventName: string): (s: seq<GA4Rule>)
    ensures |s| <= |rules|
    decreases |rules|
  {
    if rules == [] then []
    else
      (if rules[0].active && rules[0].listenEvent == eventName then [rules[0]] else [])
      + Selected(rules[1..], eventName)
  }

  /** The query returns exactly the active rules listening to the event name. */
  lemma {:induction false} SelectedMembers(rules: seq<GA4Rule>, eventName: string)
    ensures forall r :: r in Selected(rules, eventName) <==> r in rules && r.active && r.listenEvent == eventName
    decreases |rules|
  {
    if rules != [] {
      SelectedMembers(rules[1..], eventName);
      assert rules == [rules[0]] + rules[1..];
    }
  }

  /**
   * The URL filter: Ok(true) when the rule is kept. A truthy url_contains
   * is checked with `in`, which raises on a path that is not a string.
   */
  function UrlFilter(urlContains: Option<string>, path: Value): (r: Result<bool, PyError>)
    requires !IsContainer(path)
    ensures r.Err? <==> TruthyText(urlContains) && !path.Str?
    ensures r.Err? ==> r.error == TypeError
    ensures r == Ok(true) <==> !TruthyText(urlContains) || (path.Str? && Contains(path.s, urlContains.value))
  {
    if !TruthyText(urlContains) then Ok(true)
    else if path.Str? then Ok(Contains(path.s, urlContains.value))
    else Err(TypeError)
  }

  // ---------------------------------------------------------------------
  // Parameter mapping
  // ---------------------------------------------------------------------

  /**
   * `payload.get(source_key)` on a dict: a plain top-level key, and None
   * (here Null) when the key is missing or is not a string.
   */
  function Lookup(fields: map<string, Value>, sourceKey: Value): Value {
    if sourceKey.Str? && sourceKey.s in fields then fields[sourceKey.s] else Null
  }

  /** The mapping loop runs to the end without raising. */
  predicate MapsCleanly(paramsMap: Value, payload: Value) {
    && paramsMap.Obj?
    && (paramsMap.fields != map[] ==> payload.Obj?)
    && forall k :: k in paramsMap.fields ==> !IsContainer(paramsMap.fields[k])
  }

  /**
   * The parameters the mapping loop builds, or the exception it raises:
   * `.items()` on a params_map that is not a dict, `.get` on a payload
   * that is not a dict (only once the loop body runs), or an unhashable
   * source key.
   */
  function MappedParams(paramsMap: Value, payload: Value): (r: Result<map<string, Value>, PyError>)
    ensures r.Ok? <==> MapsCleanly(paramsMap, payload)
    ensures r == Err(AttributeError) <==> !paramsMap.Obj? || (paramsMap.fields != map[] && !payload.Obj?)
    ensures r.Err? ==> r.error in {AttributeError, TypeError}
  {
    if !paramsMap.Obj? then Err(AttributeError)
    else if paramsMap.fields != map[] && !payload.Obj? then Err(AttributeError)
    else if exists k :: k in paramsMap.fields && IsContainer(paramsMap.fields[k]) then Err(TypeError)
    else
      var fields := if payload.Obj? then payload.fields else map[];
      Ok(map k | k in paramsMap.fields && Lookup(fields, paramsMap.fields[k]) != Null
               :: Lookup(fields, paramsMap.fields[k]))
  }

  /**
   * Each output key is present exactly when its source key holds a non-null
   * value in the payload, and then carries that value unchanged.
   */
  lemma MappedParamsContents(paramsMap: Value, payload: Value)
    requires MapsCleanly(paramsMap, payload)
    ensures MappedParams(paramsMap, payload).Ok?
    ensures var m := MappedParams(paramsMap, payload).value;
      forall k :: k in m <==>
        && k in paramsMap.fields
        && paramsMap.fields[k].Str?
        && paramsMap.fields[k].s in payload.fields
        && payload.fields[paramsMap.fields[k].s] != Null
    ensures var m := MappedParams(paramsMap, payload).value;
      forall k :: k in m ==> m[k] == payload.fields[paramsMap.fields[k].s]
  {
  }

  /** Falsy values that are not null (0, "", false) are kept. */
  lemma MappedParamsKeepsFalsy(paramsMap: Value, payload: Value, k: string)
    requires MapsCleanly(paramsMap, payload) && k in paramsMap.fields
    requires paramsMap.fields[k].Str? && paramsMap.fields[k].s in payload.fields
    requires payload.fields[paramsMap.fields[k].s] in {Num(0), Str(""), Bool(false)}
    ensures var m := MappedParams(paramsMap, payload).value;
      k in m && m[k] == payload.fields[paramsMap.fields[k].s]
  {
    MappedParamsContents(paramsMap, payload);
  }

  /**
   * A dotted source is one literal key: when no top-level key is spelled
   * `a.b`, the output key is absent, whatever the payload holds under `a`.
   */
  lemma DottedSourceIsPlainKey(paramsMap: map<string, Value>, payload: map<string, Value>, k: string, a: string, b: string)
    requires MapsCleanly(Obj(paramsMap), Obj(payload))
    requires k in paramsMap && paramsMap[k] == Str(a + "." + b)
    requires a + "." + b !in payload
    ensures k !in MappedParams(Obj(paramsMap), Obj(payload)).value
  {
    MappedParamsContents(Obj(paramsMap), Obj(payload));
  }

  /**
   * A request body without `dataLayer` maps against `{}`: every rule that
   * maps cleanly forwards no mapped parameter, only the baseline.
   */
  lemma MissingPayloadMapsNothing(data: map<string, Value>, paramsMap: Value)
    requires "dataLayer" !in data
    requires paramsMap.Obj? && forall k :: k in paramsMap.fields ==> !IsContainer(paramsMap.fields[k])
    ensures MappedParams(paramsMap, SelectPayload(data)) == Ok(map[])
  {
    MappedParamsContents(paramsMap, SelectPayload(data));
  }

  /**
   * The mapping loop (`for ga4_param, source_key in rule.params_map.items()`).
   * Dictionary iteration order does not change the result, so the loop
   * takes the keys in any order.
   */
  method MapParams(paramsMap: Value, payload: Value) returns (r: Result<map<string, Value>, PyError>)
    ensures r == MappedParams(paramsMap, payload)
  {
    if !paramsMap.Obj? {
      return Err(AttributeError);
    }
    var pm := paramsMap.fields;
    ghost var fields := if payload.Obj? then payload.fields else map[];
    var params: map<string, Value> := map[];
    var todo := pm.Keys;
    while todo != {}
      invariant todo <= pm.Keys
      invariant todo != pm.Keys ==> payload.Obj?
      invariant forall k :: k in pm.Keys - todo ==> !IsContainer(pm[k])
      invariant params == map k | k in pm.Keys - todo && Lookup(fields, pm[k]) != Null :: Lookup(fields, pm[k])
      decreases todo
    {
      var key :| key in todo;
      if !payload.Obj? {
        return Err(AttributeError);
      }
      if IsContainer(pm[key]) {
        return Err(TypeError);
      }
      var value := Lookup(payload.fields, pm[key]);
      if value != Null {
        params := params[key := value];
      }
      todo := todo - {key};
    }
    assert pm.Keys - todo == pm.Keys;
    return Ok(params);
  }


  // ---------------------------------------------------------------------
  // Baseline fields and the outbound body
  // ---------------------------------------------------------------------

  /** `f"http://localhost{event.path}"`: the page location reported for every rule of a request. */
  function PageLocation(path: Value): string
    requires !IsContainer(path)
  {
    "http://localhost" + PyStr(path)
  }

  /**
   * `params.update({...})`: the two baseline fields overwrite any mapped
   * key of the same name, and every other mapped key is left as it was.
   */
  function WithBaseline(params: map<string, Value>, location: string): map<string, Value> {
    params + map[PageLocationKey := Str(location), EngagementKey := Num(1)]
  }

  /**
   * The baseline adds page_location (the page's location) and
   * engagement_time_msec 1, overriding mapped keys of those names, and
   * keeps every other mapped key.
   */
  lemma WithBaselineFields(params: map<string, Value>, location: string)
    ensures var r := WithBaseline(params, location);
      && r.Keys == params.Keys + {PageLocationKey, EngagementKey}
      && r[PageLocationKey] == Str(location)
      && r[EngagementKey] == Num(1)
      && forall k :: k in params && k != PageLocationKey && k != EngagementKey ==> r[k] == params[k]
  {
  }

  /** The body send_event_to_ga4 posts. */
  function Ga4Body(eventName: string, clientId: Value, params: Option<map<string, Value>>): Value {
    var p := if params.Some? && params.value != map[] then params.value else map[];
    Obj(map[
      "client_id" := clientId,
      "events" := Arr([Obj(map["name" := Str(eventName), "params" := Obj(p)])])])
  }

  /**
   * The body posted to the sink: the client id verbatim and exactly one
   * event, whose params are `params or {}`.
   */
  lemma Ga4BodyShape(eventName: string, clientId: Value, params: Option<map<string, Value>>)
    ensures var body := Ga4Body(eventName, clientId, params);
      && body.Obj? && body.fields.Keys == {"client_id", "events"}
      && body.fields["client_id"] == clientId
      && body.fields["events"].Arr? && |body.fields["events"].items| == 1
      && var e := body.fields["events"].items[0];
         && e.Obj? && e.fields.Keys == {"name", "params"}
         && e.fields["name"] == Str(eventName)
         && e.fields["params"] == Obj(if params.Some? then params.value else map[])
  {
  }

  /** The arguments of one call of send_event_to_ga4 from the forwarding loop. */
  datatype SinkCall = SinkCall(eventName: string, clientId: Value, params: map<string, Value>)

  /** What a call posts. */
  function Payload(c: SinkCall): Value {
    Ga4Body(c.eventName, c.clientId, Some(c.params))
  }

  /** What a sequence of calls posts, in order. */
  function Payloads(calls: seq<SinkCall>): (ps: seq<Value>)
    ensures |ps| == |calls|
  {
    seq(|calls|, i requires 0 <= i < |calls| => Payload(calls[i]))
  }

  lemma PayloadsAppend(a: seq<SinkCall>, b: seq<SinkCall>)
    ensures Payloads(a + b) == Payloads(a) + Payloads(b)
  {
    assert forall i :: 0 <= i < |a + b| ==> Payloads(a + b)[i] == (Payloads(a) + Payloads(b))[i];
  }

  /** A posted body for `aid` with exactly one event carrying both baseline fields for `location`. */
  predicate CarriesBaseline(b: Value, aid: Value, location: string) {
    && b.Obj? && "client_id" in b.fields && b.fields["client_id"] == aid
    && "events" in b.fields && b.fields["events"].Arr? && |b.fields["events"].items| == 1
    && var e := b.fields["events"].items[0];
       && e.Obj? && "params" in e.fields && e.fields["params"].Obj?
       && PageLocationKey in e.fields["params"].fields
       && e.fields["params"].fields[PageLocationKey] == Str(location)
       && EngagementKey in e.fields["params"].fields
       && e.fields["params"].fields[EngagementKey] == Num(1)
  }

  // ---------------------------------------------------------------------
  // The forwarding loop as a specification
  // ---------------------------------------------------------------------

  /** What one selected rule contributes: an exception, nothing (URL filter), or one call of the sink. */
  type StepResult = Result<Option<SinkCall>, PyError>

  /**
   * One pass of the loop body for `rule`. `location` is the request's
   * PageLocation, the same for every rule.
   */
  function Step(rule: GA4Rule, aid: Value, path: Value, location: string, payload: Value): StepResult
    requires !IsContainer(path)
  {
    match UrlFilter(rule.urlContains, path)
    case Err(e) => Err(e)
    case Ok(keep) =>
      if !keep then Ok(None)
      else
        match MappedParams(rule.paramsMap, payload)
        case Err(e) => Err(e)
        case Ok(m) => Ok(Some(SinkCall(rule.fireEvent, aid, WithBaseline(m, location))))
  }

  /**
   * The body a kept rule posts: its fire event, the stored aid as client
   * id, and params holding exactly the baseline keys plus every mapped key
   * whose source holds a non-null payload value; the baseline keys carry
   * the location and 1, every other key the payload's value.
   */
  lemma StepPostedBody(rule: GA4Rule, aid: Value, path: Value, location: string, payload: Value)
    requires !IsContainer(path)
    requires UrlFilter(rule.urlContains, path) == Ok(true) && MapsCleanly(rule.paramsMap, payload)
    ensures var st := Step(rule, aid, path, location, payload);
      && st.Ok? && st.value.Some?
      && var body := Payload(st.value.value);
         && body.Obj? && body.fields.Keys == {"client_id", "events"}
         && body.fields["client_id"] == aid
         && body.fields["events"].Arr? && |body.fields["events"].items| == 1
         && var e := body.fields["events"].items[0];
            && e.Obj? && e.fields.Keys == {"name", "params"}
            && e.fields["name"] == Str(rule.fireEvent)
            && e.fields["params"].Obj?
            && var p := e.fields["params"].fields;
               && (forall k :: k in p <==>
                     || k == PageLocationKey || k == EngagementKey
                     || (&& k in rule.paramsMap.fields
                         && rule.paramsMap.fields[k].Str?
                         && rule.paramsMap.fields[k].s in payload.fields
                         && payload.fields[rule.paramsMap.fields[k].s] != Null))
               && p[PageLocationKey] == Str(location)
               && p[EngagementKey] == Num(1)
               && (forall k :: k in p && k != PageLocationKey && k != EngagementKey ==>
                     p[k] == payload.fields[rule.paramsMap.fields[k].s])
  {
    var m := MappedParams(rule.paramsMap, payload).value;
    var params := WithBaseline(m, location);
    MappedParamsContents(rule.paramsMap, payload);
    WithBaselineFields(m, location);
    Ga4BodyShape(rule.fireEvent, aid, Some(params));
  }

  /** A step raises only inside the URL filter or the mapping, and sends only when the URL filter keeps the rule. */
  lemma StepOutcomes(rule: GA4Rule, aid: Value, path: Value, location: string, payload: Value)
    requires !IsContainer(path)
    ensures var st := Step(rule, aid, path, location, payload);
      && (st.Err? <==> UrlFilter(rule.urlContains, path).Err?
                       || (UrlFilter(rule.urlContains, path) == Ok(true) && !MapsCleanly(rule.paramsMap, payload)))
      && (st.Err? ==> st.error in {TypeError, AttributeError})
      && (st.Ok? ==> (st.value.Some? <==> UrlFilter(rule.urlContains, path) == Ok(true)))
  {
  }

  /** Every body a step posts is addressed to `aid` and carries both baseline fields. */
  lemma StepCarriesBaseline(rule: GA4Rule, aid: Value, path: Value, location: string, payload: Value)
    requires !IsContainer(path)
    requires Step(rule, aid, path, location, payload).Ok? && Step(rule, aid, path, location, payload).value.Some?
    ensures CarriesBaseline(Payload(Step(rule, aid, path, location, payload).value.value), aid, location)
  {
    var m := MappedParams(rule.paramsMap, payload).value;
    var params := WithBaseline(m, location);
    assert Step(rule, aid, path, location, payload).value.value == SinkCall(rule.fireEvent, aid, params);
    WithBaselineFields(m, location);
    Ga4BodyShape(rule.fireEvent, aid, Some(params));
  }

  /** The step of each selected rule, in store order. */
  function Steps(rules: seq<GA4Rule>, aid: Value, path: Value, location: string, payload: Value): (s: seq<StepResult>)
    requires !IsContainer(path)
    ensures |s| == |rules|
  {
    seq(|rules|, i requires 0 <= i < |rules| => Step(rules[i], aid, path, location, payload))
  }

  /** The calls a run made, and how it ended. */
  datatype Run = Run(sent: seq<SinkCall>, outcome: Outcome)

  function Then(done: seq<SinkCall>, r: Run): Run {
    Run(done + r.sent, r.outcome)
  }

  lemma ThenAppend(done: seq<SinkCall>, call: SinkCall, r: Run)
    ensures Then(done, Then([call], r)) == Then(done + [call], r)
  {
    assert done + ([call] + r.sent) == (done + [call]) + r.sent;
  }

  /** Counts down to the send that raises. */
  function Tick(failingSend: Option<nat>): Option<nat> {
    match failingSend
    case None => None
    case Some(n) => if n == 0 then None else Some(n - 1)
  }

  /**
   * The forwarding loop over the steps of the selected rules.
   * `failingSend` is the network's behaviour: Some(k) when the k-th send
   * (counting from 0) raises.
   */
  function Drive(steps: seq<StepResult>, failingSend: Option<nat>): Run
    decreases |steps|
  {
    if steps == [] then Run([], Completed(StatusOk))
    else
      match steps[0]
      case Err(e) => Run([], Raised(e))
      case Ok(None) => Drive(steps[1..], failingSend)
      case Ok(Some(call)) =>
        if failingSend == Some(0) then Run([call], Raised(SendFailed))
        else Then([call], Drive(steps[1..], Tick(failingSend)))
  }

  /**
   * The forwarding loop resumed at step `i`, with the calls `done` made so
   * far and `failingSend` counting down from there.
   */
  function Resume(steps: seq<StepResult>, i: nat, done: seq<SinkCall>, failingSend: Option<nat>): Run
    requires i <= |steps|
    decreases |steps| - i
  {
    if i == |steps| then Run(done, Completed(StatusOk))
    else
      match steps[i]
      case Err(e) => Run(done, Raised(e))
      case Ok(None) => Resume(steps, i + 1, done, failingSend)
      case Ok(Some(call)) =>
        if failingSend == Some(0) then Run(done + [call], Raised(SendFailed))
        else Resume(steps, i + 1, done + [call], Tick(failingSend))
  }

  /** Resuming at `i` is the run of the remaining steps after the calls already made. */
  lemma {:induction false} ResumeDrive(steps: seq<StepResult>, i: nat, done: seq<SinkCall>, failingSend: Option<nat>)
    requires i <= |steps|
    ensures Resume(steps, i, done, failingSend) == Then(done, Drive(steps[i..], failingSend))
    decreases |steps| - i
  {
    if i < |steps| {
      assert steps[i..][0] == steps[i] && steps[i..][1..] == steps[i + 1..];
      match steps[i]
      case Err(e) =>
      case Ok(None) =>
        ResumeDrive(steps, i + 1, done, failingSend);
      case Ok(Some(call)) =>
        if failingSend != Some(0) {
          ResumeDrive(steps, i + 1, done + [call], Tick(failingSend));
          ThenAppend(done, call, Drive(steps[i + 1..], Tick(failingSend)));
        }
    }
  }

  function Forward(rules: seq<GA4Rule>, aid: Value, path: Value, location: string, payload: Value, failingSend: Option<nat>): Run
    requires !IsContainer(path)
  {
    Drive(Steps(rules, aid, path, location, payload), failingSend)
  }

  /** The calls of the steps that send, in order. */
  function Calls(steps: seq<StepResult>): seq<SinkCall>
    decreases |steps|
  {
    if steps == [] then []
    else (if steps[0].Ok? && steps[0].value.Some? then [steps[0].value.value] else []) + Calls(steps[1..])
  }

  /** Without exceptions every sending step sends, in order, and the response is {"status": "ok"}. */
  lemma {:induction false} DriveDelivers(steps: seq<StepResult>)
    requires forall i :: 0 <= i < |steps| ==> steps[i].Ok?
    ensures Drive(steps, None) == Run(Calls(steps), Completed(StatusOk))
    decreases |steps|
  {
    if steps != [] {
      assert forall i :: 0 <= i < |steps[1..]| ==> steps[1..][i] == steps[i + 1];
      DriveDelivers(steps[1..]);
    }
  }

  /**
   * A send that raises only cuts the run short: with the k-th send failing,
   * the run makes the first k+1 sends of the undisturbed run and ends with
   * the exception, or is the undisturbed run when it makes no k-th send.
   */
  lemma {:induction false} DriveFailingSend(steps: seq<StepResult>, k: nat)
    ensures var ideal := Drive(steps, None);
      if k < |ideal.sent| then Drive(steps, Some(k)) == Run(ideal.sent[..k + 1], Raised(SendFailed))
      else Drive(steps, Some(k)) == ideal
    decreases |steps|
  {
    if steps != [] {
      match steps[0]
      case Err(e) =>
      case Ok(None) =>
        DriveFailingSend(steps[1..], k);
      case Ok(Some(call)) =>
        if k > 0 {
          DriveFailingSend(steps[1..], k - 1);
          var rest := Drive(steps[1..], None);
          if k - 1 < |rest.sent| {
            assert ([call] + rest.sent)[..k + 1] == [call] + rest.sent[..k];
          }
        }
    }
  }

  /**
   * A pass that raises ends the run: with no send failing, the run makes
   * the sends of the passes before the first faulting one and ends with
   * that pass's exception.
   */
  lemma {:induction false} DriveStepError(steps: seq<StepResult>, j: nat)
    requires j < |steps| && steps[j].Err?
    requires forall i :: 0 <= i < j ==> steps[i].Ok?
    ensures Drive(steps, None) == Run(Calls(steps[..j]), Raised(steps[j].error))
    decreases j
  {
    if j > 0 {
      assert steps[1..][j - 1] == steps[j];
      assert forall i :: 0 <= i < j - 1 ==> steps[1..][i] == steps[i + 1];
      DriveStepError(steps[1..], j - 1);
      assert steps[..j][0] == steps[0] && steps[..j][1..] == steps[1..][..j - 1];
    }
  }

  /** A run makes only the steps' calls, and raises only a step's exception or a send's. */
  lemma {:induction false} DriveFromSteps(steps: seq<StepResult>, failingSend: Option<nat>)
    ensures forall c :: c in Drive(steps, failingSend).sent ==> Ok(Some(c)) in steps
    ensures var out := Drive(steps, failingSend).outcome;
      out.Raised? ==> out.error == SendFailed || Err(out.error) in steps
    ensures Drive(steps, failingSend).outcome.Completed? ==> Drive(steps, failingSend).outcome == Completed(StatusOk)
    decreases |steps|
  {
    if steps != [] {
      assert steps == [steps[0]] + steps[1..];
      match steps[0]
      case Err(e) =>
      case Ok(None) =>
        DriveFromSteps(steps[1..], failingSend);
      case Ok(Some(call)) =>
        DriveFromSteps(steps[1..], Tick(failingSend));
    }
  }

  /** The rules that pass the URL filter, in store order. */
  function Matching(rules: seq<GA4Rule>, path: Value): (s: seq<GA4Rule>)
    requires !IsContainer(path)
    ensures |s| <= |rules|
    decreases |rules|
  {
    if rules == [] then []
    else
      (if UrlFilter(rules[0].urlContains, path) == Ok(true) then [rules[0]] else [])
      + Matching(rules[1..], path)
  }

  /** The rules kept are exactly those that pass the URL filter. */
  lemma {:induction false} MatchingMembers(rules: seq<GA4Rule>, path: Value)
    requires !IsContainer(path)
    ensures forall r :: r in Matching(rules, path) <==> r in rules && UrlFilter(r.urlContains, path) == Ok(true)
    decreases |rules|
  {
    if rules != [] {
      MatchingMembers(rules[1..], path);
      assert rules == [rules[0]] + rules[1..];
    }
  }

  /** No selected rule raises in the URL filter or in the mapping. */
  predicate NoRuleFaults(rules: seq<GA4Rule>, aid: Value, path: Value, location: string, payload: Value)
    requires !IsContainer(path)
  {
    forall i :: 0 <= i < |rules| ==> Step(rules[i], aid, path, location, payload).Ok?
  }

  /** The rules whose step under `f` makes a call, in order. */
  function Kept(rules: seq<GA4Rule>, f: GA4Rule -> StepResult): (s: seq<GA4Rule>)
    ensures |s| <= |rules|
    decreases |rules|
  {
    if rules == [] then []
    else (if f(rules[0]).Ok? && f(rules[0]).value.Some? then [rules[0]] else []) + Kept(rules[1..], f)
  }

  /** The calls of the steps of `rules` under `f` are the calls of the kept rules, one each, in order. */
  lemma {:induction false} CallsOfKept(rules: seq<GA4Rule>, f: GA4Rule -> StepResult)
    ensures var cs := Calls(seq(|rules|, i requires 0 <= i < |rules| => f(rules[i])));
      && |cs| == |Kept(rules, f)|
      && forall i :: 0 <= i < |cs| ==> f(Kept(rules, f)[i]) == Ok(Some(cs[i]))
    decreases |rules|
  {
    if rules != [] {
      var rest := rules[1..];
      CallsOfKept(rest, f);
      var steps := seq(|rules|, i requires 0 <= i < |rules| => f(rules[i]));
      var tail := seq(|rest|, i requires 0 <= i < |rest| => f(rest[i]));
      assert steps[0] == f(rules[0]);
      assert steps[1..] == tail;
      var cs, k := Calls(tail), Kept(rest, f);
      if f(rules[0]).Ok? && f(rules[0]).value.Some? {
        var c := f(rules[0]).value.value;
        assert Calls(steps) == [c] + cs;
        assert Kept(rules, f) == [rules[0]] + k;
        forall i | 0 <= i < |cs| + 1
          ensures f(([rules[0]] + k)[i]) == Ok(Some(([c] + cs)[i]))
        {
          if i > 0 {
            assert ([rules[0]] + k)[i] == k[i - 1];
            assert ([c] + cs)[i] == cs[i - 1];
          }
        }
      } else {
        assert Calls(steps) == cs;
      }
    }
  }

  /** Without faults, the rules whose step makes a call are the rules that pass the URL filter. */
  lemma {:induction false} KeptMatching(rules: seq<GA4Rule>, f: GA4Rule -> StepResult, aid: Value, path: Value, location: string, payload: Value)
    requires !IsContainer(path)
    requires forall i :: 0 <= i < |rules| ==> f(rules[i]) == Step(rules[i], aid, path, location, payload) && f(rules[i]).Ok?
    ensures Kept(rules, f) == Matching(rules, path)
    decreases |rules|
  {
    if rules != [] {
      var rest := rules[1..];
      assert forall i :: 0 <= i < |rest| ==> rest[i] == rules[i + 1];
      KeptMatching(rest, f, aid, path, location, payload);
      StepOutcomes(rules[0], aid, path, location, payload);
    }
  }

  /** The sending steps are exactly those of the rules that pass the URL filter. */
  lemma CallsOfMatching(rules: seq<GA4Rule>, aid: Value, path: Value, location: string, payload: Value)
    requires !IsContainer(path)
    requires NoRuleFaults(rules, aid, path, location, payload)
    ensures var cs := Calls(Steps(rules, aid, path, location, payload));
      && |cs| == |Matching(rules, path)|
      && forall i :: 0 <= i < |cs| ==> Step(Matching(rules, path)[i], aid, path, location, payload) == Ok(Some(cs[i]))
  {
    var f: GA4Rule -> StepResult := r => Step(r, aid, path, location, payload);
    assert Steps(rules, aid, path, location, payload) == seq(|rules|, i requires 0 <= i < |rules| => f(rules[i]));
    CallsOfKept(rules, f);
    KeptMatching(rules, f, aid, path, location, payload);
  }

  /**
   * When nothing raises, there is one send per rule that passes the URL
   * filter, in store order, each the call that rule builds; and the
   * response is {"status": "ok"}.
   */
  lemma ForwardSendsOnePerMatch(rules: seq<GA4Rule>, aid: Value, path: Value, location: string, payload: Value)
    requires !IsContainer(path)
    requires NoRuleFaults(rules, aid, path, location, payload)
    ensures var run := Forward(rules, aid, path, location, payload, None);
      && run.outcome == Completed(StatusOk)
      && |run.sent| == |Matching(rules, path)|
      && forall i :: 0 <= i < |run.sent| ==> Step(Matching(rules, path)[i], aid, path, location, payload) == Ok(Some(run.sent[i]))
  {
    DriveDelivers(Steps(rules, aid, path, location, payload));
    CallsOfMatching(rules, aid, path, location, payload);
  }

  /** With the k-th send failing, the request makes the first k+1 undisturbed sends and then fails. */
  lemma ForwardFailingSend(rules: seq<GA4Rule>, aid: Value, path: Value, location: string, payload: Value, k: nat)
    requires !IsContainer(path)
    ensures var ideal := Forward(rules, aid, path, location, payload, None);
      if k < |ideal.sent| then Forward(rules, aid, path, location, payload, Some(k)) == Run(ideal.sent[..k + 1], Raised(SendFailed))
      else Forward(rules, aid, path, location, payload, Some(k)) == ideal
  {
    DriveFailingSend(Steps(rules, aid, path, location, payload), k);
  }

  /**
   * A rule whose URL filter or mapping raises ends the request: the sends
   * are those of the rules before it, in store order, and the request ends
   * with that rule's exception.
   */
  lemma ForwardRuleFault(rules: seq<GA4Rule>, aid: Value, path: Value, location: string, payload: Value, j: nat)
    requires !IsContainer(path)
    requires j < |rules| && Step(rules[j], aid, path, location, payload).Err?
    requires forall i :: 0 <= i < j ==> Step(rules[i], aid, path, location, payload).Ok?
    ensures Forward(rules, aid, path, location, payload, None)
         == Run(Calls(Steps(rules[..j], aid, path, location, payload)), Raised(Step(rules[j], aid, path, location, payload).error))
  {
    var steps := Steps(rules, aid, path, location, payload);
    assert steps[..j] == Steps(rules[..j], aid, path, location, payload);
    DriveStepError(steps, j);
  }

  /** Every step is the step of some selected rule. */
  lemma {:induction false} StepsMembers(rules: seq<GA4Rule>, aid: Value, path: Value, location: string, payload: Value)
    requires !IsContainer(path)
    ensures forall x :: x in Steps(rules, aid, path, location, payload) ==> exists r :: r in rules && x == Step(r, aid, path, location, payload)
  {
    forall x | x in Steps(rules, aid, path, location, payload)
      ensures exists r :: r in rules && x == Step(r, aid, path, location, payload)
    {
      var i :| 0 <= i < |rules| && Steps(rules, aid, path, location, payload)[i] == x;
      assert rules[i] in rules;
    }
  }

  /**
   * Every body posted carries the stored aid and exactly one event with both
   * baseline fields, and the forwarding loop never raises IntegrityError.
   */
  lemma ForwardSentBodies(rules: seq<GA4Rule>, aid: Value, path: Value, location: string, payload: Value, failingSend: Option<nat>)
    requires !IsContainer(path)
    ensures forall c :: c in Forward(rules, aid, path, location, payload, failingSend).sent ==> CarriesBaseline(Payload(c), aid, location)
    ensures Forward(rules, aid, path, location, payload, failingSend).outcome != Raised(IntegrityError)
  {
    var steps := Steps(rules, aid, path, location, payload);
    DriveFromSteps(steps, failingSend);
    StepsMembers(rules, aid, path, location, payload);
    forall c | c in Forward(rules, aid, path, location, payload, failingSend).sent
      ensures CarriesBaseline(Payload(c), aid, location)
    {
      var r :| r in rules && Ok(Some(c)) == Step(r, aid, path, location, payload);
      StepCarriesBaseline(r, aid, path, location, payload);
    }
    var out := Forward(rules, aid, path, location, payload, failingSend).outcome;
    if out.Raised? && out.error != SendFailed {
      var r :| r in rules && Err(out.error) == Step(r, aid, path, location, payload);
      StepOutcomes(r, aid, path, location, payload);
    }
  }

  // ---------------------------------------------------------------------
  // The whole request
  // ---------------------------------------------------------------------

  /** The request fields that go through Python's str() are JSON scalars. */
  predicate ScalarFields(data: map<string, Value>) {
    !IsContainer(Get(data, "event", Null)) && !IsContainer(Get(data, "path", Null))
  }

  /** The event rows a request logs, and the run that follows. */
  datatype Collected = Collected(logged: seq<Event>, run: Run)

  /**
   * collect_event as a specification: a missing (or null) aid, event or
   * path makes the insert fail; otherwise the event is logged and the
   * selected rules are forwarded.
   */
  function Collect(rules: seq<GA4Rule>, data: map<string, Value>, userAgent: Option<string>, failingSend: Option<nat>): (c: Collected)
    requires ScalarFields(data)
    ensures c.logged == [] <==> c.run.outcome == Raised(IntegrityError)
    ensures c.logged == [] ==> c.run.sent == []
    ensures c.run.outcome == Raised(IntegrityError) <==>
      Get(data, "aid", Null) == Null || Get(data, "event", Null) == Null || Get(data, "path", Null) == Null
    ensures c.logged != [] ==> c.logged == [Event(data["aid"], data["event"], data["path"], userAgent)]
  {
    var aid := Get(data, "aid", Null);
    var name := Get(data, "event", Null);
    var path := Get(data, "path", Null);
    if aid == Null || name == Null || path == Null then
      Collected([], Run([], Raised(IntegrityError)))
    else
      var rules := Selected(rules, PyStr(name));
      ForwardSentBodies(rules, aid, path, PageLocation(path), SelectPayload(data), failingSend);
      Collected([Event(aid, name, path, userAgent)], Forward(rules, aid, path, PageLocation(path), SelectPayload(data), failingSend))
  }

  /** The two bodies agree on key `k`, in presence and in value. */
  predicate SameField(data: map<string, Value>, other: map<string, Value>, k: string) {
    && (k in data <==> k in other)
    && (k in data ==> data[k] == other[k])
  }

  /**
   * collect_event reads nothing of the body but `aid`, `event`, `path` and
   * `dataLayer`: two bodies that agree on those four keys are logged and
   * forwarded alike.
   */
  lemma CollectReadsFourFields(rules: seq<GA4Rule>, data: map<string, Value>, other: map<string, Value>,
                               userAgent: Option<string>, failingSend: Option<nat>)
    requires ScalarFields(data)
    requires SameField(data, other, "aid") && SameField(data, other, "event")
    requires SameField(data, other, "path") && SameField(data, other, "dataLayer")
    ensures ScalarFields(other)
    ensures Collect(rules, data, userAgent, failingSend) == Collect(rules, other, userAgent, failingSend)
  {
    assert Get(data, "aid", Null) == Get(other, "aid", Null);
    assert Get(data, "event", Null) == Get(other, "event", Null);
    assert Get(data, "path", Null) == Get(other, "path", Null);
    assert SelectPayload(data) == SelectPayload(other);
  }

  /**
   * For a complete request without faults or failing sends: the event is
   * logged, one call is made per rule that is active, listens to the event
   * name and passes the URL filter, and the response is {"status": "ok"}.
   */
  lemma CollectSendsForMatchingRules(rules: seq<GA4Rule>, data: map<string, Value>, userAgent: Option<string>)
    requires ScalarFields(data)
    requires "aid" in data && "event" in data && "path" in data
    requires data["aid"] != Null && data["event"] != Null && data["path"] != Null
    requires NoRuleFaults(Selected(rules, PyStr(data["event"])), data["aid"], data["path"], PageLocation(data["path"]), SelectPayload(data))
    ensures var c := Collect(rules, data, userAgent, None);
      var m := Matching(Selected(rules, PyStr(data["event"])), data["path"]);
      && c.logged == [Event(data["aid"], data["event"], data["path"], userAgent)]
      && c.run.outcome == Completed(StatusOk)
      && |c.run.sent| == |m|
      && (forall i :: 0 <= i < |m| ==>
            Step(m[i], data["aid"], data["path"], PageLocation(data["path"]), SelectPayload(data)) == Ok(Some(c.run.sent[i])))
      && forall r :: r in m <==>
           && r in rules && r.active && r.listenEvent == PyStr(data["event"])
           && UrlFilter(r.urlContains, data["path"]) == Ok(true)
  {
    var sel := Selected(rules, PyStr(data["event"]));
    ForwardSendsOnePerMatch(sel, data["aid"], data["path"], PageLocation(data["path"]), SelectPayload(data));
    SelectedMembers(rules, PyStr(data["event"]));
    MatchingMembers(sel, data["path"]);
  }

  // ---------------------------------------------------------------------
  // The rule listing
  // ---------------------------------------------------------------------

  function OptionalText(o: Option<string>): Value {
    if o.Some? then Str(o.value) else Null
  }

  /** One listed rule: the six served fields, values unchanged (None as null). */
  function ProjectTrackingRule(r: TrackingRule): (j: Value)
    ensures j.Obj?
    ensures j.fields.Keys == {"listen_event", "selector", "url_contains", "fire_event", "params_map", "custom_js"}
    ensures j.fields["listen_event"] == Str(r.listenEvent) && j.fields["fire_event"] == Str(r.fireEvent)
    ensures j.fields["selector"] == OptionalText(r.selector)
    ensures j.fields["url_contains"] == OptionalText(r.urlContains)
    ensures j.fields["params_map"] == r.paramsMap
    ensures j.fields["custom_js"] == OptionalText(r.customJs)
  {
    Obj(map[
      "listen_event" := Str(r.listenEvent),
      "selector" := OptionalText(r.selector),
      "url_contains" := OptionalText(r.urlContains),
      "fire_event" := Str(r.fireEvent),
      "params_map" := r.paramsMap,
      "custom_js" := OptionalText(r.customJs)])
  }

  /** `TrackingRule.objects.filter(active=True)`, in store order. */
  function ActiveTracking(rules: seq<TrackingRule>): (s: seq<TrackingRule>)
    ensures |s| <= |rules|
    decreases |rules|
  {
    if rules == [] then []
    else (if rules[0].active then [rules[0]] else []) + ActiveTracking(rules[1..])
  }

  /** The listing query returns exactly the active rules. */
  lemma {:induction false} ActiveTrackingMembers(rules: seq<TrackingRule>)
    ensures forall r :: r in ActiveTracking(rules) <==> r in rules && r.active
    decreases |rules|
  {
    if rules != [] {
      ActiveTrackingMembers(rules[1..]);
      assert rules == [rules[0]] + rules[1..];
    }
  }

  // ---------------------------------------------------------------------
  // The backend state
  // ---------------------------------------------------------------------

  /**
   * The body of the forwarding loop for one rule, up to the send: the URL
   * filter, then the mapping and the baseline.
   */
  method PrepareStep(rule: GA4Rule, aid: Value, path: Value, location: string, payload: Value)
    returns (st: StepResult)
    requires !IsContainer(path)
    ensures st == Step(rule, aid, path, location, payload)
  {
    var keep := UrlFilter(rule.urlContains, path);
    if keep.Err? {
      return Err(keep.error);
    }
    if !keep.value {
      return Ok(None);
    }
    var mapped := MapParams(rule.paramsMap, payload);
    if mapped.Err? {
      return Err(mapped.error);
    }
    var params := WithBaseline(mapped.value, location);
    return Ok(Some(SinkCall(rule.fireEvent, aid, params)));
  }

  /**
   * The stores the two endpoints use, and the bodies posted to the sink.
   * Rules are managed outside this model and never change here.
   */
  class Backend {
    var events: seq<Event>
    var ga4Rules: seq<GA4Rule>
    var trackingRules: seq<TrackingRule>
    ghost var posted: seq<Value>

    constructor (ga4Rules: seq<GA4Rule>, trackingRules: seq<TrackingRule>)
      ensures this.ga4Rules == ga4Rules && this.trackingRules == trackingRules
      ensures events == [] && posted == []
    {
      this.ga4Rules := ga4Rules;
      this.trackingRules := trackingRules;
      events := [];
      posted := [];
    }

    /**
     * send_event_to_ga4: posts the body. `fails` is the network's answer:
     * true when the post raises, which the function does not catch.
     */
    method SendEventToGa4(eventName: string, clientId: Value, params: Option<map<string, Value>>, fails: bool)
      returns (raised: bool)
      modifies this`posted
      ensures posted == old(posted) + [Ga4Body(eventName, clientId, params)]
      ensures raised == fails
    {
      posted := posted + [Ga4Body(eventName, clientId, params)];
      raised := fails;
    }

    /**
     * collect_event. `userAgent` is the request's User-Agent header and
     * `failingSend` says which send, if any, raises.
     */
    method CollectEvent(data: map<string, Value>, userAgent: Option<string>, failingSend: Option<nat>)
      returns (out: Outcome)
      requires ScalarFields(data)
      modifies this`events, this`posted
      ensures var c := Collect(ga4Rules, data, userAgent, failingSend);
        && events == old(events) + c.logged
        && posted == old(posted) + Payloads(c.run.sent)
        && out == c.run.outcome
    {
      var payload := SelectPayload(data);
      var aid := Get(data, "aid", Null);
      var name := Get(data, "event", Null);
      var path := Get(data, "path", Null);
      if aid == Null || name == Null || path == Null {
        assert Payloads([]) == [];
        return Raised(IntegrityError);
      }
      events := events + [Event(aid, name, path, userAgent)];

      out := ForwardRules(Selected(ga4Rules, PyStr(name)), aid, path, PageLocation(path), payload, failingSend);
    }

    /**
     * One pass of the forwarding loop: the rule's step, and the send when
     * the step makes a call. `raised` is whether that send raised.
     */
    method ForwardStep(rule: GA4Rule, aid: Value, path: Value, location: string, payload: Value, pending: Option<nat>)
      returns (st: StepResult, raised: bool)
      requires !IsContainer(path)
      modifies this`posted
      ensures st == Step(rule, aid, path, location, payload)
      ensures posted == old(posted) + Payloads(if st.Ok? && st.value.Some? then [st.value.value] else [])
      ensures raised <==> st.Ok? && st.value.Some? && pending == Some(0)
    {
      st := PrepareStep(rule, aid, path, location, payload);
      raised := false;
      if st.Ok? && st.value.Some? {
        var call := st.value.value;
        raised := SendEventToGa4(call.eventName, call.clientId, Some(call.params), pending == Some(0));
        assert Payloads([call]) == [Payload(call)];
      } else {
        assert Payloads([]) == [];
      }
    }

    /**
     * The loop of collect_event over the selected rules: each rule is
     * filtered by path, mapped and sent in turn; the first exception ends
     * the request.
     */
    method ForwardRules(rules: seq<GA4Rule>, aid: Value, path: Value, location: string, payload: Value, failingSend: Option<nat>)
      returns (out: Outcome)
      requires !IsContainer(path)
      modifies this`posted
      ensures posted == old(posted) + Payloads(Forward(rules, aid, path, location, payload, failingSend).sent)
      ensures out == Forward(rules, aid, path, location, payload, failingSend).outcome
    {
      ghost var base := posted;
      ghost var steps := Steps(rules, aid, path, location, payload);
      ResumeDrive(steps, 0, [], failingSend);
      assert steps[0..] == steps;
      ghost var done: seq<SinkCall> := [];
      assert Payloads(done) == [];
      var pending := failingSend;
      var i := 0;
      while i < |rules|
        invariant 0 <= i <= |rules|
        invariant posted == base + Payloads(done)
        invariant Resume(steps, 0, [], failingSend) == Resume(steps, i, done, pending)
      {
        var st, raised := ForwardStep(rules[i], aid, path, location, payload, pending);
        if st.Err? {
          return Raised(st.error);
        }
        if st.value.Some? {
          PayloadsAppend(done, [st.value.value]);
          assert posted == base + Payloads(done + [st.value.value]);
          done := done + [st.value.value];
          if raised {
            return Raised(SendFailed);
          }
          pending := Tick(pending);
        }
        i := i + 1;
      }
      return Completed(StatusOk);
    }

    /** tracking_rules: every active rule, in store order, projected to its six served fields. */
    method TrackingRules() returns (data: seq<Value>)
      ensures |data| == |ActiveTracking(trackingRules)|
      ensures forall i :: 0 <= i < |data| ==> data[i] == ProjectTrackingRule(ActiveTracking(trackingRules)[i])
    {
      var rules := ActiveTracking(trackingRules);
      data := [];
      var i := 0;
      while i < |rules|
        invariant 0 <= i <= |rules|
        invariant |data| == i
        invariant forall j :: 0 <= j < i ==> data[j] == ProjectTrackingRule(rules[j])
      {
        data := data + [ProjectTrackingRule(rules[i])];
        i := i + 1;
      }
    }
  }
}
