/**
 * The browser tracking script.
 *
 * Every push onto `window.dataLayer` goes through an interceptor: when the
 * first argument is truthy and has a truthy `event`, it is posted to the
 * collection endpoint and the dynamic rules are applied to it; all the
 * arguments are then appended to the array as usual, and later arguments
 * are never posted. A dynamic rule that listens to the event name
 * (and passes its URL and selector filters) pushes one more object, its
 * fire event with parameters read out of the original object. The scroll
 * handler pushes a `scroll_depth` event the first time each of 25%, 50%,
 * 75% and 100% is reached.
 *
 * JavaScript values are JSON values here: there is no `undefined` (an
 * absent property is `None`), no function and no NaN.
 */
module ClaroTrack {
  import opened Wrappers
  import opened Json

  /** A rule as the rule listing serves it: its six fields. */
  datatype DynamicRule = DynamicRule(
    listenEvent: string,
    selector: Option<string>,
    urlContains: Option<string>,
    fireEvent: string,
    paramsMap: Value,
    customJs: Option<string>)

  // ---------------------------------------------------------------------
  // JavaScript values
  // ---------------------------------------------------------------------

  /** JavaScript truthiness. */
  predicate JsTruthy(v: Value) {
    match v
    case Null => false
    case Bool(b) => b
    case Num(n) => n != 0
    case Str(s) => s != ""
    case Arr(_) => true
    case Obj(_) => true
  }

  function Join(parts: seq<string>, sep: string): string
    decreases |parts|
  {
    if parts == [] then ""
    else if |parts| == 1 then parts[0]
    else parts[0] + sep + Join(parts[1..], sep)
  }

  /**
   * `String(v)`, the property key a value is turned into: an array joins
   * its elements with commas (null elements as the empty string), an
   * object is "[object Object]".
   */
  function JsString(v: Value): string
    decreases v
  {
    match v
    case Null => "null"
    case Bool(b) => if b then "true" else "false"
    case Num(n) => IntToString(n)
    case Str(s) => s
    case Arr(items) =>
      Join(seq(|items|, i requires 0 <= i < |items| => if items[i] == Null then "" else JsString(items[i])), ",")
    case Obj(_) => "[object Object]"
  }

  lemma NatToStringInjectiveAll()
    ensures forall a: nat, b: nat :: NatToString(a) == NatToString(b) ==> a == b
  {
    forall a: nat, b: nat ensures NatToString(a) == NatToString(b) ==> a == b {
      NatToStringInjective(a, b);
    }
  }

  /** The index properties "0", "1", ... of an array-like value with these elements. */
  function Indexed(elems: seq<Value>): (m: map<string, Value>)
    ensures forall i :: 0 <= i < |elems| ==> NatToString(i) in m && m[NatToString(i)] == elems[i]
    ensures forall k :: k in m ==> exists i :: 0 <= i < |elems| && k == NatToString(i)
  {
    NatToStringInjectiveAll();
    map i | 0 <= i < |elems| :: NatToString(i) := elems[i]
  }

  /**
   * The own enumerable properties of a value: the keys `for...in` visits
   * with their values, and what `{...v}` copies. A string has one property
   * per character.
   */
  function OwnEntries(v: Value): map<string, Value> {
    match v
    case Obj(fields) => fields
    case Arr(items) => Indexed(items)
    case Str(s) => Indexed(seq(|s|, i requires 0 <= i < |s| => Str([s[i]])))
    case _ => map[]
  }

  /**
   * `v[key]` on a value that is not null; None stands for `undefined`.
   * Arrays and strings also have `length`.
   */
  function Prop(v: Value, key: string): Option<Value>
    requires v != Null
  {
    if key in OwnEntries(v) then Some(OwnEntries(v)[key])
    else if v.Arr? && key == "length" then Some(Num(|v.items|))
    else if v.Str? && key == "length" then Some(Num(|v.s|))
    else None
  }

  /** `x || null` for a property read. */
  function OrNull(o: Option<Value>): Value {
    if o.Some? && JsTruthy(o.value) then o.value else Null
  }

  /** What pushEvent(name, params) pushes: `{event: name, ...params}`. */
  function PushedObject(name: Value, params: Value): Value {
    EventObject(name, OwnEntries(params))
  }

  /**
   * `{event: name, ...params}`: the spread comes last, so a parameter
   * named "event" overrides the name.
   */
  function EventObject(name: Value, params: map<string, Value>): (o: Value)
    ensures o.Obj? && o.fields.Keys == params.Keys + {"event"}
    ensures o.fields["event"] == if "event" in params then params["event"] else name
    ensures forall k :: k in params ==> o.fields[k] == params[k]
  {
    Obj(map["event" := name] + params)
  }

  // ---------------------------------------------------------------------
  // Rule application
  // ---------------------------------------------------------------------

  /**
   * The filters of applyRules: the rule listens to exactly this event
   * name, a truthy url_contains is part of the pathname, and a truthy
   * selector finds an element. `found` stands for the document: whether
   * `querySelector` finds an element for a selector. The served rules
   * never carry match_id or match_text, so an element found is enough.
   */
  predicate RuleApplies(rule: DynamicRule, eventName: Value, pathname: string, found: string -> bool) {
    && eventName == Str(rule.listenEvent)
    && (TruthyText(rule.urlContains) ==> Contains(pathname, rule.urlContains.value))
    && (TruthyText(rule.selector) ==> found(rule.selector.value))
  }

  /**
   * The parameters applyRules maps: nothing for a falsy params_map;
   * otherwise every key of params_map, with the event's property named by
   * its value when that property is truthy, and null when not.
   */
  function RuleParams(paramsMap: Value, eventData: Value): map<string, Value>
    requires eventData != Null
  {
    if !JsTruthy(paramsMap) then map[]
    else
      var entries := OwnEntries(paramsMap);
      map k | k in entries :: ReadParam(eventData, entries[k])
  }

  /** `eventData[prop] || null`. */
  function ReadParam(eventData: Value, prop: Value): Value
    requires eventData != Null
  {
    OrNull(Prop(eventData, JsString(prop)))
  }

  /**
   * For a params_map object: its keys are exactly the mapped keys; a key
   * whose source names a truthy property carries that value, and every
   * other key (missing, null, false, 0 or "") carries null.
   */
  lemma RuleParamsOfObject(paramsMap: map<string, Value>, eventData: Value)
    requires eventData != Null
    ensures var m := RuleParams(Obj(paramsMap), eventData);
      && m.Keys == paramsMap.Keys
      && forall k :: k in m ==>
           var read := Prop(eventData, JsString(paramsMap[k]));
           if read.Some? && JsTruthy(read.value) then m[k] == read.value else m[k] == Null
  {
  }

  /** A params_map that is missing, null, false, 0 or "" maps nothing. */
  lemma RuleParamsOfFalsy(paramsMap: Value, eventData: Value)
    requires eventData != Null && !JsTruthy(paramsMap)
    ensures RuleParams(paramsMap, eventData) == map[]
  {
  }

  /** The parameter mapping of applyRules: `if (rule.params_map)` around the for...in loop. */
  method MapRuleParams(paramsMap: Value, eventData: Value) returns (params: map<string, Value>)
    requires eventData != Null
    ensures params == RuleParams(paramsMap, eventData)
  {
    params := map[];
    if !JsTruthy(paramsMap) {
      return;
    }
    params := ForInParams(OwnEntries(paramsMap), eventData);
  }

  /**
   * The for...in loop over params_map's keys and values. Key order does
   * not change the result, so the loop takes the keys in any order.
   */
  method ForInParams(entries: map<string, Value>, eventData: Value) returns (params: map<string, Value>)
    requires eventData != Null
    ensures params == map k | k in entries :: ReadParam(eventData, entries[k])
  {
    params := map[];
    var todo := entries.Keys;
    while todo != {}
      invariant todo <= entries.Keys
      invariant params == map k | k in entries.Keys - todo :: ReadParam(eventData, entries[k])
      decreases todo
    {
      var key :| key in todo;
      params := params[key := ReadParam(eventData, entries[key])];
      todo := todo - {key};
    }
    assert entries.Keys - todo == entries.Keys;
  }

  /** The object applyRules pushes for a rule that applies. */
  function RuleObject(rule: DynamicRule, eventData: Value): Value
    requires eventData != Null
  {
    EventObject(Str(rule.fireEvent), RuleParams(rule.paramsMap, eventData))
  }

  /** The rules that pass the filters, in order. */
  function Applying(rules: seq<DynamicRule>, eventName: Value, pathname: string, found: string -> bool): (s: seq<DynamicRule>)
    ensures |s| <= |rules|
    decreases |rules|
  {
    if rules == [] then []
    else
      (if RuleApplies(rules[0], eventName, pathname, found) then [rules[0]] else [])
      + Applying(rules[1..], eventName, pathname, found)
  }

  /** The rules kept are exactly those that pass the filters. */
  lemma {:induction false} ApplyingMembers(rules: seq<DynamicRule>, eventName: Value, pathname: string, found: string -> bool)
    ensures forall r :: r in Applying(rules, eventName, pathname, found) <==> r in rules && RuleApplies(r, eventName, pathname, found)
    decreases |rules|
  {
    if rules != [] {
      ApplyingMembers(rules[1..], eventName, pathname, found);
      assert rules == [rules[0]] + rules[1..];
    }
  }

  lemma {:induction false} ApplyingSnoc(rules: seq<DynamicRule>, r: DynamicRule, eventName: Value, pathname: string, found: string -> bool)
    ensures Applying(rules + [r], eventName, pathname, found)
         == Applying(rules, eventName, pathname, found) + (if RuleApplies(r, eventName, pathname, found) then [r] else [])
    decreases |rules|
  {
    if rules == [] {
      assert [] + [r] == [r];
    } else {
      assert (rules + [r])[0] == rules[0] && (rules + [r])[1..] == rules[1..] + [r];
      ApplyingSnoc(rules[1..], r, eventName, pathname, found);
    }
  }

  /**
   * What applyRules pushes for an event: one object per rule that passes
   * the filters, in rule order, carrying the rule's fire event and mapped
   * parameters.
   */
  function RulePushes(rules: seq<DynamicRule>, eventName: Value, eventData: Value, pathname: string, found: string -> bool): (ps: seq<Value>)
    requires eventData != Null
    ensures |ps| == |Applying(rules, eventName, pathname, found)|
  {
    var a := Applying(rules, eventName, pathname, found);
    seq(|a|, i requires 0 <= i < |a| => RuleObject(a[i], eventData))
  }

  lemma RulePushesSnoc(rules: seq<DynamicRule>, r: DynamicRule, eventName: Value, eventData: Value, pathname: string, found: string -> bool)
    requires eventData != Null
    ensures RulePushes(rules + [r], eventName, eventData, pathname, found)
         == RulePushes(rules, eventName, eventData, pathname, found)
            + (if RuleApplies(r, eventName, pathname, found) then [RuleObject(r, eventData)] else [])
  {
    ApplyingSnoc(rules, r, eventName, pathname, found);
  }

  /**
   * A rule pushes its fire event unless it maps a parameter named "event",
   * whose value then takes the place of the fire event.
   */
  lemma RuleObjectEvent(rule: DynamicRule, eventData: Value)
    requires eventData != Null
    ensures var params := RuleParams(rule.paramsMap, eventData);
      RuleObject(rule, eventData).fields["event"] == if "event" in params then params["event"] else Str(rule.fireEvent)
  {
  }

  // ---------------------------------------------------------------------
  // The body posted to the collection endpoint, and the visitor id
  // ---------------------------------------------------------------------

  /** `JSON.stringify({aid, event, path, dataLayer: payload})`, before serialisation. */
  function SendBody(aid: string, eventName: Value, pathname: string, payload: Value): Value {
    Obj(map["aid" := Str(aid), "event" := eventName, "path" := Str(pathname), "dataLayer" := payload])
  }

  /** The id getAid returns: the stored id when it is a non-empty string, else the fresh UUID `uuid`. */
  function CurrentAid(stored: Option<string>, uuid: string): string {
    if TruthyText(stored) then stored.value else uuid
  }

  /** The stored id after getAid: unchanged when there was one, `uuid` otherwise. */
  function StoredAfter(stored: Option<string>, uuid: string): (s: Option<string>)
    ensures s == Some(CurrentAid(stored, uuid))
    ensures TruthyText(stored) ==> s == stored
  {
    if TruthyText(stored) then stored else Some(uuid)
  }

  /**
   * Once getAid has run, the id is settled: later calls return the same id
   * and leave the store as it is, whatever UUID they would have drawn
   * (a UUID is never empty).
   */
  lemma AidSettles(stored: Option<string>, uuid: string, later: string)
    requires uuid != "" || later == uuid
    ensures CurrentAid(StoredAfter(stored, uuid), later) == CurrentAid(stored, uuid)
    ensures StoredAfter(StoredAfter(stored, uuid), later) == StoredAfter(stored, uuid)
  {
  }

  // ---------------------------------------------------------------------
  // The interceptor
  // ---------------------------------------------------------------------

  /** The guard `item && item.event`, `item` being the first argument of push. */
  predicate Intercepts(args: seq<Value>) {
    && |args| > 0 && JsTruthy(args[0])
    && Prop(args[0], "event").Some? && JsTruthy(Prop(args[0], "event").value)
  }

  /** `item.event` of an intercepted item. */
  function EventName(args: seq<Value>): Value
    requires Intercepts(args)
  {
    Prop(args[0], "event").value
  }

  /** The body the interceptor posts for a push, if any. */
  function PushSends(args: seq<Value>, aid: string, pathname: string): (b: seq<Value>)
    ensures |b| == if Intercepts(args) then 1 else 0
  {
    if Intercepts(args) then [SendBody(aid, EventName(args), pathname, args[0])] else []
  }

  /** The objects the rules push in reaction to a push, if any. */
  function PushReactions(rules: seq<DynamicRule>, args: seq<Value>, pathname: string, found: string -> bool): seq<Value> {
    if Intercepts(args) then RulePushes(rules, EventName(args), args[0], pathname, found) else []
  }

  /**
   * With the rule list as the script starts it (loadRules is never called),
   * no push causes a rule reaction.
   */
  lemma NoRulesNoReactions(args: seq<Value>, pathname: string, found: string -> bool)
    ensures PushReactions([], args, pathname, found) == []
  {
    if Intercepts(args) {
      assert Applying([], EventName(args), pathname, found) == [];
    }
  }

  /** An empty push, a falsy item and an item without a truthy event are neither posted nor matched. */
  lemma InterceptGuard(args: seq<Value>, aid: string, pathname: string, rules: seq<DynamicRule>, found: string -> bool)
    requires |args| == 0 || !JsTruthy(args[0]) || Prop(args[0], "event").None? || !JsTruthy(Prop(args[0], "event").value)
    ensures PushSends(args, aid, pathname) == [] && PushReactions(rules, args, pathname, found) == []
  {
  }

  // ---------------------------------------------------------------------
  // Scroll depth
  // ---------------------------------------------------------------------

  const Thresholds: seq<int> := [25, 50, 75, 100]

  /**
   * The thresholds among `ths` that a scroll to `percent` fires, in the
   * order of `ths`: reached and not fired before.
   */
  function FiresAmong(ths: seq<int>, fired: set<int>, percent: int): (r: seq<int>)
    ensures forall p :: p in r <==> p in ths && p <= percent && p !in fired
    ensures |r| <= |ths|
    decreases |ths|
  {
    if ths == [] then []
    else
      var last := ths[|ths| - 1];
      assert forall p :: p in ths <==> p in ths[..|ths| - 1] || p == last;
      FiresAmong(ths[..|ths| - 1], fired, percent) + (if percent >= last && last !in fired then [last] else [])
  }

  predicate Increasing(s: seq<int>) {
    forall i, j :: 0 <= i < j < |s| ==> s[i] < s[j]
  }

  /** What one scroll fires: exactly the thresholds reached and not fired before, in ascending order. */
  function Fires(fired: set<int>, percent: int): (r: seq<int>)
    ensures forall p :: p in r <==> p in Thresholds && p <= percent && p !in fired
    ensures Increasing(r)
  {
    var r := FiresAmong(Thresholds, fired, percent);
    FiresIncreasing(Thresholds, fired, percent);
    r
  }

  lemma {:induction false} FiresIncreasing(ths: seq<int>, fired: set<int>, percent: int)
    requires Increasing(ths)
    ensures Increasing(FiresAmong(ths, fired, percent))
    decreases |ths|
  {
    if ths != [] {
      var init := ths[..|ths| - 1];
      assert Increasing(init);
      FiresIncreasing(init, fired, percent);
      var last := ths[|ths| - 1];
      var r0 := FiresAmong(init, fired, percent);
      forall p | p in r0 ensures p < last {
        var i :| 0 <= i < |init| && init[i] == p;
        assert init[i] == ths[i];
      }
      var r := r0 + (if percent >= last && last !in fired then [last] else []);
      forall i, j | 0 <= i < j < |r| ensures r[i] < r[j] {
        if j >= |r0| {
          assert r[i] == r0[i] && r0[i] in r0;
        } else {
          assert r[i] == r0[i] && r[j] == r0[j];
        }
      }
    }
  }

  /** Taking one more threshold adds it at the end when it fires, and it was not among those before. */
  lemma FiresAmongStep(j: nat, fired: set<int>, percent: int)
    requires j < |Thresholds|
    ensures var p := Thresholds[j];
      && p !in FiresAmong(Thresholds[..j], fired, percent)
      && FiresAmong(Thresholds[..j + 1], fired, percent)
         == FiresAmong(Thresholds[..j], fired, percent) + (if percent >= p && p !in fired then [p] else [])
  {
    assert Thresholds[..j + 1][..j] == Thresholds[..j];
    assert Thresholds[j] !in Thresholds[..j];
  }

  /** The scroll_depth events of the first `j` thresholds, from the fired set `fired`. */
  function DepthSoFar(j: nat, fired: set<int>, percent: int): seq<Value>
    requires j <= |Thresholds|
  {
    DepthObjects(FiresAmong(Thresholds[..j], fired, percent))
  }

  /** The scroll_depth event of the `j`-th threshold, when it fires. */
  function DepthAt(j: nat, fired: set<int>, percent: int): seq<Value>
    requires j < |Thresholds|
  {
    if percent >= Thresholds[j] && Thresholds[j] !in fired then [DepthObject(Thresholds[j])] else []
  }

  /**
   * Handling one more threshold appends its event, if it fires, and adds it
   * to the fired set; whether it fires does not depend on the thresholds
   * before it.
   */
  lemma DepthSoFarStep(j: nat, fired: set<int>, percent: int)
    requires j < |Thresholds|
    ensures DepthSoFar(j + 1, fired, percent) == DepthSoFar(j, fired, percent) + DepthAt(j, fired, percent)
    ensures var p := Thresholds[j];
      var f := fired + ToSet(FiresAmong(Thresholds[..j], fired, percent));
      && (p !in f <==> p !in fired)
      && DepthAt(j, fired, percent) == (if percent >= p && p !in f then [DepthObject(p)] else [])
      && fired + ToSet(FiresAmong(Thresholds[..j + 1], fired, percent)) == f + (if percent >= p && p !in f then {p} else {})
  {
    var p, before := Thresholds[j], FiresAmong(Thresholds[..j], fired, percent);
    FiresAmongStep(j, fired, percent);
    if percent >= p && p !in fired {
      DepthObjectsSnoc(before, p);
      ToSetSnoc(before, p);
    } else {
      assert before + [] == before;
    }
  }

  function ToSet(s: seq<int>): set<int> {
    set p | p in s
  }

  lemma ToSetSnoc(s: seq<int>, p: int)
    ensures ToSet(s + [p]) == ToSet(s) + {p}
  {
  }

  /** The scroll_depth thresholds a sequence of scrolls fires, in order, starting from the fired set `fired`. */
  function ScrollFirings(fired: set<int>, percents: seq<int>): seq<int>
    decreases |percents|
  {
    if percents == [] then []
    else
      var f := Fires(fired, percents[0]);
      f + ScrollFirings(fired + ToSet(f), percents[1..])
  }

  /**
   * Over any sequence of scrolls, each threshold fires at most once, and
   * a threshold fired before the sequence never fires again.
   */
  lemma {:induction false} ScrollFiresOnce(fired: set<int>, percents: seq<int>)
    ensures var s := ScrollFirings(fired, percents);
      && (forall i, j :: 0 <= i < j < |s| ==> s[i] != s[j])
      && (forall p :: p in s ==> p in Thresholds && p !in fired)
    decreases |percents|
  {
    if percents != [] {
      var f := Fires(fired, percents[0]);
      var rest := ScrollFirings(fired + ToSet(f), percents[1..]);
      ScrollFiresOnce(fired + ToSet(f), percents[1..]);
      var s := f + rest;
      forall i, j | 0 <= i < j < |s| ensures s[i] != s[j] {
        if j < |f| {
        } else if i < |f| {
          assert s[i] in ToSet(f);
          assert s[j] == rest[j - |f|];
        } else {
          assert s[i] == rest[i - |f|] && s[j] == rest[j - |f|];
        }
      }
    }
  }

  /** A pushEvent with a non-empty name and no parameter named "event" goes through the interceptor. */
  lemma PushedIntercepted(name: string, params: Value)
    requires name != "" && "event" !in OwnEntries(params)
    ensures Intercepts([PushedObject(Str(name), params)])
    ensures EventName([PushedObject(Str(name), params)]) == Str(name)
  {
  }

  /** The object the scroll handler pushes on every scroll. */
  function ScrollObject(percent: int): Value {
    PushedObject(Str("scroll"), Obj(map["scroll_percent" := Num(percent)]))
  }

  /** The object pushed when a threshold is reached for the first time. */
  function DepthObject(p: int): Value {
    PushedObject(Str("scroll_depth"), Obj(map["percent" := Num(p)]))
  }

  /** The scroll_depth events for the thresholds `fires`, in the same order. */
  function DepthObjects(fires: seq<int>): (o: seq<Value>)
    ensures |o| == |fires|
  {
    seq(|fires|, i requires 0 <= i < |fires| => DepthObject(fires[i]))
  }

  lemma DepthObjectsSnoc(fires: seq<int>, p: int)
    ensures DepthObjects(fires + [p]) == DepthObjects(fires) + [DepthObject(p)]
  {
    var a, b := DepthObjects(fires + [p]), DepthObjects(fires) + [DepthObject(p)];
    assert forall i :: 0 <= i < |a| ==> a[i] == b[i];
  }

  /** Everything one scroll pushes: the scroll event, then one scroll_depth event per threshold fired. */
  function ScrollObjects(percent: int, fires: seq<int>): (o: seq<Value>)
    ensures |o| == |fires| + 1
  {
    [ScrollObject(percent)] + DepthObjects(fires)
  }

  lemma AppendAssoc(a: seq<Value>, b: seq<Value>, c: seq<Value>)
    ensures (a + b) + c == a + (b + c)
  {
  }

  /** `f` of each object in turn, concatenated. */
  function Concat(f: Value -> seq<Value>, objs: seq<Value>): seq<Value>
    decreases |objs|
  {
    if objs == [] then []
    else Concat(f, objs[..|objs| - 1]) + f(objs[|objs| - 1])
  }

  lemma ConcatSnoc(f: Value -> seq<Value>, objs: seq<Value>, o: Value)
    ensures Concat(f, objs + [o]) == Concat(f, objs) + f(o)
  {
    assert (objs + [o])[..|objs|] == objs;
  }

  lemma ConcatSingle(f: Value -> seq<Value>, o: Value)
    ensures Concat(f, [o]) == f(o)
  {
    ConcatSnoc(f, [], o);
    assert [] + [o] == [o];
  }

  lemma {:induction false} ConcatAppend(f: Value -> seq<Value>, a: seq<Value>, b: seq<Value>)
    ensures Concat(f, a + b) == Concat(f, a) + Concat(f, b)
    decreases |b|
  {
    if b == [] {
      assert a + b == a;
    } else {
      var init, o := b[..|b| - 1], b[|b| - 1];
      assert a + b == (a + init) + [o] && b == init + [o];
      ConcatAppend(f, a, init);
      ConcatSnoc(f, a + init, o);
      ConcatSnoc(f, init, o);
    }
  }

  /** The bodies posted for a sequence of objects pushed one at a time. */
  function Posts(aid: string, pathname: string, objs: seq<Value>): seq<Value> {
    Concat(o => PushSends([o], aid, pathname), objs)
  }

  /** The objects the rules push in reaction to a sequence of pushed objects. */
  function Reactions(rules: seq<DynamicRule>, objs: seq<Value>, pathname: string, found: string -> bool): seq<Value> {
    Concat(o => PushReactions(rules, [o], pathname, found), objs)
  }

  // ---------------------------------------------------------------------
  // The page state
  // ---------------------------------------------------------------------

  /**
   * The script's state in one page: window.dataLayer, the rule list, the
   * thresholds fired, the id in localStorage under `ct_aid`, and the
   * bodies handed to fetch.
   */
  class Tracker {
    var dataLayer: seq<Value>
    var dynamicRules: seq<DynamicRule>
    var firedScroll: set<int>
    var storedAid: Option<string>
    ghost var outbox: seq<Value>

    /**
     * The script starting on a page: `window.dataLayer || []` (an array,
     * when the page has one), no rules and nothing fired.
     */
    constructor (existing: Option<seq<Value>>, stored: Option<string>)
      ensures dataLayer == (if existing.Some? then existing.value else [])
      ensures dynamicRules == [] && firedScroll == {} && storedAid == stored && outbox == []
    {
      dataLayer := if existing.Some? then existing.value else [];
      dynamicRules := [];
      firedScroll := {};
      storedAid := stored;
      outbox := [];
    }

    /** `dynamicRules = await res.json()`, with the rules already decoded. */
    method InstallRules(rules: seq<DynamicRule>)
      modifies this`dynamicRules
      ensures dynamicRules == rules
    {
      dynamicRules := rules;
    }

    /** getAid, with `uuid` the UUID crypto.randomUUID() would return. */
    method GetAid(uuid: string) returns (aid: string)
      modifies this`storedAid
      ensures aid == CurrentAid(old(storedAid), uuid)
      ensures storedAid == StoredAfter(old(storedAid), uuid)
    {
      if !TruthyText(storedAid) {
        storedAid := Some(uuid);
      }
      aid := storedAid.value;
    }

    /** send: the body handed to fetch. A failed fetch is only logged. */
    method Send(eventName: Value, payload: Value, pathname: string, uuid: string)
      modifies this`storedAid, this`outbox
      ensures outbox == old(outbox) + [SendBody(CurrentAid(old(storedAid), uuid), eventName, pathname, payload)]
      ensures storedAid == StoredAfter(old(storedAid), uuid)
    {
      var aid := GetAid(uuid);
      outbox := outbox + [SendBody(aid, eventName, pathname, payload)];
    }

    /**
     * applyRules: the objects the rules push for an event, in rule order.
     * custom_js is not run here.
     */
    method ApplyRules(eventName: Value, eventData: Value, pathname: string, found: string -> bool) returns (pushes: seq<Value>)
      requires eventData != Null
      ensures pushes == RulePushes(dynamicRules, eventName, eventData, pathname, found)
    {
      var rules := dynamicRules;
      pushes := [];
      var i := 0;
      while i < |rules|
        invariant 0 <= i <= |rules|
        invariant pushes == RulePushes(rules[..i], eventName, eventData, pathname, found)
      {
        var rule := rules[i];
        var applies := eventName == Str(rule.listenEvent);
        if applies && TruthyText(rule.urlContains) && !Contains(pathname, rule.urlContains.value) {
          applies := false;
        }
        if applies && TruthyText(rule.selector) && !found(rule.selector.value) {
          applies := false;
        }
        RulePushesSnoc(rules[..i], rule, eventName, eventData, pathname, found);
        assert rules[..i + 1] == rules[..i] + [rule];
        if applies {
          var params := MapRuleParams(rule.paramsMap, eventData);
          pushes := pushes + [EventObject(Str(rule.fireEvent), params)];
        }
        i := i + 1;
      }
      assert rules[..i] == rules;
    }

    /**
     * The patched `window.dataLayer.push`: an intercepted item is posted
     * and matched against the rules, and every argument is appended.
     * `length` is what push returns; `ruled` are the objects the rules
     * push in reaction. In the script those reactions are pushed from
     * inside the interceptor, before the item itself is appended; pushing
     * `ruled` afterwards would append them after the item instead.
     */
    method Push(args: seq<Value>, pathname: string, found: string -> bool, uuid: string)
      returns (length: nat, ruled: seq<Value>)
      modifies this`dataLayer, this`storedAid, this`outbox
      ensures dataLayer == old(dataLayer) + args && length == |dataLayer|
      ensures outbox == old(outbox) + PushSends(args, CurrentAid(old(storedAid), uuid), pathname)
      ensures storedAid == if Intercepts(args) then StoredAfter(old(storedAid), uuid) else old(storedAid)
      ensures ruled == PushReactions(dynamicRules, args, pathname, found)
    {
      ruled := [];
      if |args| > 0 && JsTruthy(args[0]) {
        var event := Prop(args[0], "event");
        if event.Some? && JsTruthy(event.value) {
          Send(event.value, args[0], pathname, uuid);
          ruled := ApplyRules(event.value, args[0], pathname, found);
        }
      }
      dataLayer := dataLayer + args;
      length := |dataLayer|;
    }

    /** pushEvent: pushes `{event: eventName, ...params}`. */
    method PushEvent(eventName: Value, params: Value, pathname: string, found: string -> bool, uuid: string)
      returns (ruled: seq<Value>)
      modifies this`dataLayer, this`storedAid, this`outbox
      ensures var args := [PushedObject(eventName, params)];
        && dataLayer == old(dataLayer) + args
        && outbox == old(outbox) + PushSends(args, CurrentAid(old(storedAid), uuid), pathname)
        && storedAid == (if Intercepts(args) then StoredAfter(old(storedAid), uuid) else old(storedAid))
        && ruled == PushReactions(dynamicRules, args, pathname, found)
    {
      var length;
      length, ruled := Push([PushedObject(eventName, params)], pathname, found, uuid);
    }

    /**
     * The threshold callback of the scroll handler for threshold `p`: a
     * threshold reached and not fired before is marked fired and pushes
     * its scroll_depth event.
     */
    method ScrollDepth(p: int, percent: int, pathname: string, found: string -> bool, uuid: string)
      returns (ruled: seq<Value>)
      requires storedAid == StoredAfter(storedAid, uuid)
      modifies this`dataLayer, this`storedAid, this`outbox, this`firedScroll
      ensures storedAid == old(storedAid)
      ensures var fires := percent >= p && p !in old(firedScroll);
        var args := if fires then [DepthObject(p)] else [];
        && firedScroll == old(firedScroll) + (if fires then {p} else {})
        && dataLayer == old(dataLayer) + args
        && outbox == old(outbox) + Posts(CurrentAid(storedAid, uuid), pathname, args)
        && ruled == Reactions(dynamicRules, args, pathname, found)
    {
      ghost var aid, rules := CurrentAid(storedAid, uuid), dynamicRules;
      ruled := [];
      if percent >= p && p !in firedScroll {
        firedScroll := firedScroll + {p};
        ruled := PushEvent(Str("scroll_depth"), Obj(map["percent" := Num(p)]), pathname, found, uuid);
        ConcatSingle(o => PushSends([o], aid, pathname), DepthObject(p));
        ConcatSingle(o => PushReactions(rules, [o], pathname, found), DepthObject(p));
      } else {
        assert old(dataLayer) + [] == old(dataLayer);
      }
    }

    /**
     * The forEach callback for the `j`-th threshold, seen from the loop:
     * with the thresholds before it handled, it leaves the first `j + 1`
     * handled. The visitor id is already stored.
     */
    method ThresholdStep(j: nat, percent: int, pathname: string, found: string -> bool, uuid: string,
                         ghost fired0: set<int>, ghost layer0: seq<Value>, ghost out0: seq<Value>, ruled: seq<Value>)
      returns (ruled': seq<Value>)
      requires j < |Thresholds|
      requires storedAid == StoredAfter(storedAid, uuid)
      requires firedScroll == fired0 + ToSet(FiresAmong(Thresholds[..j], fired0, percent))
      requires dataLayer == layer0 + DepthSoFar(j, fired0, percent)
      requires outbox == out0 + Posts(CurrentAid(storedAid, uuid), pathname, DepthSoFar(j, fired0, percent))
      requires ruled == Reactions(dynamicRules, DepthSoFar(j, fired0, percent), pathname, found)
      modifies this`dataLayer, this`storedAid, this`outbox, this`firedScroll
      ensures storedAid == old(storedAid)
      ensures firedScroll == fired0 + ToSet(FiresAmong(Thresholds[..j + 1], fired0, percent))
      ensures dataLayer == layer0 + DepthSoFar(j + 1, fired0, percent)
      ensures outbox == out0 + Posts(CurrentAid(storedAid, uuid), pathname, DepthSoFar(j + 1, fired0, percent))
      ensures ruled' == Reactions(dynamicRules, DepthSoFar(j + 1, fired0, percent), pathname, found)
    {
      ghost var aid, rules := CurrentAid(storedAid, uuid), dynamicRules;
      ghost var objs, args := DepthSoFar(j, fired0, percent), DepthAt(j, fired0, percent);
      DepthSoFarStep(j, fired0, percent);
      var r := ScrollDepth(Thresholds[j], percent, pathname, found, uuid);
      ruled' := ruled + r;
      ConcatAppend(o => PushSends([o], aid, pathname), objs, args);
      ConcatAppend(o => PushReactions(rules, [o], pathname, found), objs, args);
      AppendAssoc(layer0, objs, args);
      AppendAssoc(out0, Posts(aid, pathname, objs), Posts(aid, pathname, args));
    }

    /**
     * The `[25, 50, 75, 100].forEach` of the scroll handler, with the
     * visitor id already stored: each threshold reached and not fired
     * before is marked fired and pushes its scroll_depth event, in
     * ascending order.
     */
    method FireThresholds(percent: int, pathname: string, found: string -> bool, uuid: string)
      returns (ruled: seq<Value>)
      requires storedAid == StoredAfter(storedAid, uuid)
      modifies this`dataLayer, this`storedAid, this`outbox, this`firedScroll
      ensures var fires := Fires(old(firedScroll), percent);
        var objs := DepthObjects(fires);
        && firedScroll == old(firedScroll) + ToSet(fires)
        && dataLayer == old(dataLayer) + objs
        && outbox == old(outbox) + Posts(CurrentAid(storedAid, uuid), pathname, objs)
        && storedAid == old(storedAid)
        && ruled == Reactions(dynamicRules, objs, pathname, found)
    {
      ghost var fired0, layer0, out0 := firedScroll, dataLayer, outbox;
      assert Thresholds[..0] == [];
      assert layer0 + [] == layer0 && out0 + [] == out0 && fired0 + {} == fired0;
      ruled := [];
      var j := 0;
      while j < |Thresholds|
        invariant 0 <= j <= |Thresholds|
        invariant storedAid == old(storedAid)
        invariant firedScroll == fired0 + ToSet(FiresAmong(Thresholds[..j], fired0, percent))
        invariant dataLayer == layer0 + DepthSoFar(j, fired0, percent)
        invariant outbox == out0 + Posts(CurrentAid(storedAid, uuid), pathname, DepthSoFar(j, fired0, percent))
        invariant ruled == Reactions(dynamicRules, DepthSoFar(j, fired0, percent), pathname, found)
      {
        ruled := ThresholdStep(j, percent, pathname, found, uuid, fired0, layer0, out0, ruled);
        j := j + 1;
      }
      assert Thresholds[..j] == Thresholds;
    }

    /**
     * The scroll handler for a scroll to `percent`: a scroll event, then a
     * scroll_depth event for each threshold reached for the first time,
     * in ascending order; the fired set only grows.
     */
    method OnScroll(percent: int, pathname: string, found: string -> bool, uuid: string)
      returns (ruled: seq<Value>)
      modifies this`dataLayer, this`storedAid, this`outbox, this`firedScroll
      ensures old(firedScroll) <= firedScroll
      ensures var fires := Fires(old(firedScroll), percent);
        var objs := ScrollObjects(percent, fires);
        && firedScroll == old(firedScroll) + ToSet(fires)
        && dataLayer == old(dataLayer) + objs
        && outbox == old(outbox) + Posts(CurrentAid(old(storedAid), uuid), pathname, objs)
        && storedAid == StoredAfter(old(storedAid), uuid)
        && ruled == Reactions(dynamicRules, objs, pathname, found)
    {
      ghost var aid, rules := CurrentAid(storedAid, uuid), dynamicRules;
      ghost var layer0, out0 := dataLayer, outbox;
      ghost var head := [ScrollObject(percent)];
      ghost var depth := DepthObjects(Fires(firedScroll, percent));
      ghost var posts := o => PushSends([o], aid, pathname);
      ghost var reactions := o => PushReactions(rules, [o], pathname, found);
      AidSettles(storedAid, uuid, uuid);
      PushedIntercepted("scroll", Obj(map["scroll_percent" := Num(percent)]));
      var first := PushEvent(Str("scroll"), Obj(map["scroll_percent" := Num(percent)]), pathname, found, uuid);
      ConcatSingle(posts, ScrollObject(percent));
      ConcatSingle(reactions, ScrollObject(percent));
      assert outbox == out0 + Concat(posts, head);
      assert first == Concat(reactions, head);
      ghost var layer1, out1 := dataLayer, outbox;
      var rest := FireThresholds(percent, pathname, found, uuid);
      assert dataLayer == layer1 + depth;
      assert outbox == out1 + Concat(posts, depth);
      assert rest == Concat(reactions, depth);
      ruled := first + rest;
      ConcatAppend(posts, head, depth);
      ConcatAppend(reactions, head, depth);
      AppendAssoc(layer0, head, depth);
      AppendAssoc(out0, Concat(posts, head), Concat(posts, depth));
    }
  }
}
