/**
 * Where the tracking script and the collection endpoint meet: the body the
 * script posts is the body collect_event reads, and the two sides map rule
 * parameters differently.
 */
module Wire {
  import opened Wrappers
  import opened Json
  import opened Models
  import Views
  import ClaroTrack

  /**
   * The body `send` posts, read by collect_event: the parameters come from
   * exactly the pushed item, and the logged event holds the visitor id, the
   * event name and the pathname the script sent.
   */
  lemma SentBodyIsCollected(aid: string, eventName: Value, pathname: string, item: Value,
                            rules: seq<GA4Rule>, userAgent: Option<string>, failingSend: Option<nat>)
    requires eventName != Null && !IsContainer(eventName)
    ensures var data := ClaroTrack.SendBody(aid, eventName, pathname, item).fields;
      && Views.ScalarFields(data)
      && Views.SelectPayload(data) == item
      && Views.Collect(rules, data, userAgent, failingSend).logged == [Event(Str(aid), eventName, Str(pathname), userAgent)]
  {
    var data := ClaroTrack.SendBody(aid, eventName, pathname, item).fields;
    assert data["aid"] == Str(aid) && data["event"] == eventName && data["path"] == Str(pathname);
  }

  /**
   * The same rule mapping on both sides, for a source key `src`: the server
   * emits the output key exactly when the payload holds a non-null value
   * there, and then that value; the script always emits the key, with the
   * value when it is truthy and null otherwise.
   */
  lemma MappingSides(paramsMap: map<string, Value>, payload: map<string, Value>, k: string)
    requires Views.MapsCleanly(Obj(paramsMap), Obj(payload))
    requires k in paramsMap && paramsMap[k].Str?
    ensures var src := paramsMap[k].s;
      var server := Views.MappedParams(Obj(paramsMap), Obj(payload));
      var client := ClaroTrack.RuleParams(Obj(paramsMap), Obj(payload));
      && server.Ok?
      && (k in server.value <==> src in payload && payload[src] != Null)
      && (k in server.value ==> server.value[k] == payload[src])
      && k in client
      && client[k] == (if src in payload && ClaroTrack.JsTruthy(payload[src]) then payload[src] else Null)
  {
    Views.MappedParamsContents(Obj(paramsMap), Obj(payload));
    ClaroTrack.RuleParamsOfObject(paramsMap, Obj(payload));
  }

  /**
   * Where the two sides disagree: a falsy value that is not null (0, "" or
   * false) is forwarded by the server and replaced by null in the script.
   */
  lemma FalsyValueDiffers(paramsMap: map<string, Value>, payload: map<string, Value>, k: string)
    requires Views.MapsCleanly(Obj(paramsMap), Obj(payload))
    requires k in paramsMap && paramsMap[k].Str? && paramsMap[k].s in payload
    requires payload[paramsMap[k].s] in {Num(0), Str(""), Bool(false)}
    ensures Views.MappedParams(Obj(paramsMap), Obj(payload)).value[k] == payload[paramsMap[k].s]
    ensures ClaroTrack.RuleParams(Obj(paramsMap), Obj(payload))[k] == Null
  {
    MappingSides(paramsMap, payload, k);
  }

  /**
   * A numeric source is never found by the server, whose payload keys are
   * strings (`payload.get(5)` is None); the script reads the property
   * `String(5)`, and forwards its value when it is truthy.
   */
  lemma NumericSourceDiffers(paramsMap: map<string, Value>, payload: map<string, Value>, k: string, n: int)
    requires Views.MapsCleanly(Obj(paramsMap), Obj(payload))
    requires k in paramsMap && paramsMap[k] == Num(n)
    requires IntToString(n) in payload && ClaroTrack.JsTruthy(payload[IntToString(n)])
    ensures k !in Views.MappedParams(Obj(paramsMap), Obj(payload)).value
    ensures ClaroTrack.RuleParams(Obj(paramsMap), Obj(payload))[k] == payload[IntToString(n)]
  {
    Views.MappedParamsContents(Obj(paramsMap), Obj(payload));
    ClaroTrack.RuleParamsOfObject(paramsMap, Obj(payload));
  }
}
