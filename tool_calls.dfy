/**
 * Decoding a provider tool call into an Invocation, the path both adapters
 * share: each argument value is turned into text (a JSON string gives its
 * unescaped content, any other value its JSON rendering), every leading and
 * trailing `"` is stripped, the key `payload` becomes the payload and every
 * other key an attribute; an empty attribute map becomes no attributes.
 */
module ToolCalls {
  import opened Wrappers
  import opened Strings
  import opened Generator

  /**
   * One parsed argument value. JSON parsing and rendering are done by the
   * serializer, so a non-string value arrives with its rendering.
   */
  datatype ArgValue = StringValue(content: string) | OtherValue(rendered: string)

  /** The outcome of parsing a call's argument text as a JSON object. */
  datatype ParsedArgs = Parsed(args: map<string, ArgValue>) | Malformed(error: string)

  /** The text of an argument value before quote trimming. */
  function ArgText(v: ArgValue): string {
    match v
    case StringValue(content) => content
    case OtherValue(rendered) => rendered
  }

  /** The value stored in the Invocation for one argument. */
  function ArgString(v: ArgValue): string {
    TrimQuotes(ArgText(v))
  }

  /**
   * A decoded value never starts or ends with a quote; it is empty exactly
   * when the text was nothing but quotes; text without surrounding quotes is
   * kept as it is.
   */
  lemma ArgStringFacts(v: ArgValue)
    ensures var r := ArgString(v);
      && (r != [] ==> r[0] != '"' && r[|r| - 1] != '"')
      && (r == [] <==> forall k :: 0 <= k < |ArgText(v)| ==> ArgText(v)[k] == '"')
      && (|ArgText(v)| > 0 && ArgText(v)[0] != '"' && ArgText(v)[|ArgText(v)| - 1] != '"' ==> r == ArgText(v))
  {
    TrimWithFacts(ArgText(v), DoubleQuote);
  }

  /** The arguments among `keys` except `payload`, normalised. */
  function AttributesOver(args: map<string, ArgValue>, keys: set<string>): map<string, string> {
    map k | k in keys && k in args && k != "payload" :: ArgString(args[k])
  }

  /** Every argument except `payload`, normalised. */
  function AttributesOf(args: map<string, ArgValue>): map<string, string> {
    AttributesOver(args, args.Keys)
  }

  /** The invocation a call with function name `action` and arguments `args` decodes to. */
  function DecodedInvocation(action: string, args: Option<map<string, ArgValue>>): (inv: Invocation)
    ensures inv.action == action
    ensures inv.payload.Some? <==> args.Some? && "payload" in args.value
    ensures inv.payload.Some? ==> inv.payload.value == ArgString(args.value["payload"])
    ensures inv.attributes.Some? ==> inv.attributes.value != map[]
    ensures inv.attributes.Some? ==> "payload" !in inv.attributes.value
    ensures forall k :: args.Some? && k in args.value && k != "payload" ==>
      inv.attributes.Some? && k in inv.attributes.value && inv.attributes.value[k] == ArgString(args.value[k])
    ensures inv.attributes.Some? ==> forall k :: k in inv.attributes.value ==> args.Some? && k in args.value
  {
    var attrs := if args.Some? then AttributesOf(args.value) else map[];
    var payload := if args.Some? && "payload" in args.value then Some(ArgString(args.value["payload"])) else None;
    assert forall k :: args.Some? && k in args.value && k != "payload" ==> k in attrs;
    Invocation(action, if attrs == map[] then None else Some(attrs), payload)
  }

  lemma AttributesOverAdd(args: map<string, ArgValue>, keys: set<string>, name: string)
    requires name in args
    ensures AttributesOver(args, keys + {name})
         == if name == "payload" then AttributesOver(args, keys)
            else AttributesOver(args, keys)[name := ArgString(args[name])]
  {
  }

  /**
   * The `for (name, value) in map` loop of the adapters: visits the argument
   * map in hash order, filling `payload` and `attributes`.
   */
  method DecodeArguments(args: map<string, ArgValue>)
    returns (payload: Option<string>, attributes: map<string, string>)
    ensures payload == (if "payload" in args then Some(ArgString(args["payload"])) else None)
    ensures attributes == AttributesOf(args)
  {
    payload := None;
    attributes := map[];
    var remaining := args.Keys;
    ghost var done: set<string> := {};
    while remaining != {}
      invariant remaining + done == args.Keys && remaining !! done
      invariant payload == (if "payload" in done then Some(ArgString(args["payload"])) else None)
      invariant attributes == AttributesOver(args, done)
      decreases |remaining|
    {
      var name :| name in remaining;
      var value := args[name];
      var strVal := ArgString(value);
      AttributesOverAdd(args, done, name);
      if name == "payload" {
        payload := Some(strVal);
      } else {
        attributes := attributes[name := strVal];
      }
      remaining := remaining - {name};
      done := done + {name};
    }
    assert done == args.Keys;
  }

  /** Decodes one call whose arguments, when present, parsed successfully. */
  method DecodeCall(action: string, args: Option<map<string, ArgValue>>) returns (inv: Invocation)
    ensures inv == DecodedInvocation(action, args)
  {
    var payload: Option<string> := None;
    var attributes: map<string, string> := map[];
    if args.Some? {
      payload, attributes := DecodeArguments(args.value);
    }
    inv := Invocation(action, if attributes == map[] then None else Some(attributes), payload);
  }

  /**
   * A call carrying a payload and one other argument, as in
   * `{"payload":"hello","extra":"world"}`: the payload is taken out and the
   * other key is the only attribute.
   */
  lemma PayloadAndOneAttribute(action: string, p: ArgValue, key: string, w: ArgValue)
    requires key != "payload"
    ensures DecodedInvocation(action, Some(map["payload" := p, key := w]))
         == Invocation(action, Some(map[key := ArgString(w)]), Some(ArgString(p)))
  {
    var args := map["payload" := p, key := w];
    var attrs := AttributesOf(args);
    assert args.Keys == {"payload", key};
    assert attrs.Keys == {key};
    assert attrs == map[key := ArgString(w)];
    assert attrs != map[];
  }

  function Quotes(n: nat): (q: string)
    ensures |q| == n && forall k :: 0 <= k < n ==> q[k] == '"'
  {
    seq(n, _ => '"')
  }

  /**
   * Quote trimming removes every surrounding quote, not only one on each
   * side, whether the value was a JSON string or some other JSON value.
   */
  lemma AllSurroundingQuotesStripped(t: string, n: nat, m: nat)
    requires t != [] && t[0] != '"' && t[|t| - 1] != '"'
    ensures ArgString(StringValue(Quotes(n) + t + Quotes(m))) == t
    ensures ArgString(OtherValue(Quotes(n) + t + Quotes(m))) == t
  {
    TrimWithOf(Quotes(n), t, Quotes(m), DoubleQuote);
  }

  /** A call without arguments decodes to neither payload nor attributes. */
  lemma NoArguments(action: string)
    ensures DecodedInvocation(action, None) == Invocation(action, None, None)
  {
  }

  // ---------------------------------------------------------------------------
  // The per-reply decoding loop

  /**
   * A tool call as the provider returns it: an optional function name and
   * optional argument text, already run through the JSON parser.
   */
  datatype WireCall = WireCall(name: Option<string>, arguments: Option<ParsedArgs>)

  predicate IsMalformed(c: WireCall) {
    c.arguments.Some? && c.arguments.value.Malformed?
  }

  /** The invocation a well-formed call decodes to; a missing name becomes the empty action name. */
  function CallInvocation(c: WireCall): Invocation
    requires !IsMalformed(c)
  {
    DecodedInvocation(c.name.GetOr(""), if c.arguments.Some? then Some(c.arguments.value.args) else None)
  }

  /**
   * Decoding every call of a reply: one invocation per call, in order, or the
   * parser error of the first call whose arguments are not a JSON object (the
   * `?` aborts the whole reply).
   */
  function DecodeCalls(calls: seq<WireCall>): (r: Result<seq<Invocation>, string>)
    ensures r.Ok? <==> forall k :: 0 <= k < |calls| ==> !IsMalformed(calls[k])
    ensures r.Ok? ==> |r.value| == |calls|
    ensures r.Ok? ==> forall k :: 0 <= k < |calls| ==> r.value[k] == CallInvocation(calls[k])
    ensures r.Err? ==> exists k ::
      && 0 <= k < |calls| && IsMalformed(calls[k])
      && r.error == calls[k].arguments.value.error
      && (forall k' :: 0 <= k' < k ==> !IsMalformed(calls[k']))
    decreases |calls|
  {
    if calls == [] then Ok([])
    else if IsMalformed(calls[0]) then Err(calls[0].arguments.value.error)
    else
      var rest := DecodeCalls(calls[1..]);
      if rest.Err? then
        assert forall k :: 1 <= k < |calls| ==> calls[k] == calls[1..][k - 1];
        var k1 :| 0 <= k1 < |calls| - 1 && IsMalformed(calls[1..][k1])
          && rest.error == calls[1..][k1].arguments.value.error
          && forall k' :: 0 <= k' < k1 ==> !IsMalformed(calls[1..][k']);
        assert forall k' :: 0 <= k' < k1 + 1 ==> !IsMalformed(calls[k']);
        rest
      else
        assert forall k :: 1 <= k < |calls| ==> calls[k] == calls[1..][k - 1] && !IsMalformed(calls[k]);
        Ok([CallInvocation(calls[0])] + rest.value)
  }

  /** The `for call in calls` loop of both adapters. */
  method DecodeAllCalls(calls: seq<WireCall>) returns (r: Result<seq<Invocation>, string>)
    ensures r == DecodeCalls(calls)
  {
    var invocations: seq<Invocation> := [];
    var i := 0;
    while i < |calls|
      invariant 0 <= i <= |calls|
      invariant |invocations| == i
      invariant forall k :: 0 <= k < i ==> !IsMalformed(calls[k])
      invariant forall k :: 0 <= k < i ==> invocations[k] == CallInvocation(calls[k])
    {
      var call := calls[i];
      var args: Option<map<string, ArgValue>> := None;
      if call.arguments.Some? {
        match call.arguments.value
        case Malformed(e) =>
          DecodeCallsStopsAt(calls, i);
          return Err(e);
        case Parsed(m) =>
          args := Some(m);
      }
      var inv := DecodeCall(call.name.GetOr(""), args);
      invocations := invocations + [inv];
      i := i + 1;
    }
    r := Ok(invocations);
    DecodeCallsAllOk(calls, invocations);
  }

  lemma DecodeCallsStopsAt(calls: seq<WireCall>, i: nat)
    requires i < |calls| && IsMalformed(calls[i])
    requires forall k :: 0 <= k < i ==> !IsMalformed(calls[k])
    ensures DecodeCalls(calls) == Err(calls[i].arguments.value.error)
  {
    var r := DecodeCalls(calls);
    var k :| 0 <= k < |calls| && IsMalformed(calls[k])
      && r.error == calls[k].arguments.value.error
      && forall k' :: 0 <= k' < k ==> !IsMalformed(calls[k']);
    assert k == i;
  }

  lemma DecodeCallsAllOk(calls: seq<WireCall>, invocations: seq<Invocation>)
    requires |invocations| == |calls|
    requires forall k :: 0 <= k < |calls| ==> !IsMalformed(calls[k])
    requires forall k :: 0 <= k < |calls| ==> invocations[k] == CallInvocation(calls[k])
    ensures DecodeCalls(calls) == Ok(invocations)
  {
    var r := DecodeCalls(calls);
    assert r.value == invocations;
  }
}
