/**
 * Native tool-schema synthesis, the loop both adapters run when the shared
 * state's native-tool-format flag is set: one function definition per action,
 * in namespace then action order, whose JSON-schema parameters make `payload`
 * a required string when the action has an example payload and every example
 * attribute key a required string described by its own name.
 */
module ToolSchema {
  import opened Wrappers
  import opened Namespaces

  datatype Property = Property(propType: string, description: string)

  datatype Tool = Tool(
    toolType: string,
    name: string,
    description: string,
    parametersType: string,
    required: seq<string>,
    properties: map<string, Property>)

  const PayloadTemplate := "The main function argument, use this as a template: "

  /** Every action of every namespace, in namespace then action order. */
  function AllActions(namespaces: seq<Namespace>): seq<Action>
    decreases |namespaces|
  {
    if namespaces == [] then []
    else AllActions(namespaces[..|namespaces| - 1]) + namespaces[|namespaces| - 1].actions
  }

  function AttributeKeys(a: Action): set<string> {
    if a.exampleAttributes.Some? then a.exampleAttributes.value.Keys else {}
  }

  function PayloadRequired(a: Action): seq<string> {
    if a.examplePayload.Some? then ["payload"] else []
  }

  function PayloadProperties(a: Action): map<string, Property> {
    if a.examplePayload.Some? then map["payload" := Property("string", PayloadTemplate + a.examplePayload.value)]
    else map[]
  }

  function AttributeProperties(keys: set<string>): map<string, Property> {
    map k | k in keys :: Property("string", k)
  }

  /** `listed` enumerates `keys` once each, in some order. */
  ghost predicate KeyListing(listed: seq<string>, keys: set<string>) {
    && Distinct(listed)
    && |listed| == |keys|
    && (forall k :: k in listed <==> k in keys)
  }

  lemma KeyListingAdd(listed: seq<string>, keys: set<string>, name: string)
    requires KeyListing(listed, keys) && name !in keys
    ensures KeyListing(listed + [name], keys + {name})
  {
    assert |keys + {name}| == |keys| + 1;
  }

  lemma AttributePropertiesAdd(keys: set<string>, name: string)
    ensures AttributeProperties(keys + {name}) == AttributeProperties(keys)[name := Property("string", name)]
  {
  }

  /** The required list of a schema for `a`: the payload part, then the attribute keys. */
  ghost predicate RequiredOf(a: Action, required: seq<string>) {
    && |PayloadRequired(a)| <= |required|
    && required[..|PayloadRequired(a)|] == PayloadRequired(a)
    && KeyListing(required[|PayloadRequired(a)|..], AttributeKeys(a))
  }

  /**
   * `t` is a schema the synthesis loop can produce for `a`. The order of the
   * attribute keys after `payload` is that of a hash-map iteration, so any
   * duplicate-free listing of the keys is allowed; an attribute named
   * `payload` overwrites the payload property, as the later insert does.
   */
  ghost predicate SchemaOf(a: Action, t: Tool) {
    && t.toolType == "function" && t.name == a.name && t.description == a.description
    && t.parametersType == "object"
    && RequiredOf(a, t.required)
    && t.properties == PayloadProperties(a) + AttributeProperties(AttributeKeys(a))
  }

  lemma UnionUpdate(p: map<string, Property>, q: map<string, Property>, k: string, v: Property)
    ensures (p + q)[k := v] == p + q[k := v]
  {
  }

  /** Builds the function definition of one action. */
  method BuildTool(a: Action) returns (t: Tool)
    ensures SchemaOf(a, t)
  {
    var required: seq<string> := [];
    var properties: map<string, Property> := map[];
    if a.examplePayload.Some? {
      required := required + ["payload"];
      properties := properties["payload" := Property("string", PayloadTemplate + a.examplePayload.value)];
    }
    assert required == PayloadRequired(a) && properties == PayloadProperties(a);
    ghost var listed: seq<string> := [];
    if a.exampleAttributes.Some? {
      required, properties, listed := AddAttributeParameters(required, properties, a.exampleAttributes.value);
    }
    t := Tool("function", a.name, a.description, "object", required, properties);
    SchemaFromParts(a, t, listed);
  }

  lemma SchemaFromParts(a: Action, t: Tool, listed: seq<string>)
    requires t.toolType == "function" && t.name == a.name && t.description == a.description
    requires t.parametersType == "object"
    requires t.required == PayloadRequired(a) + listed
    requires KeyListing(listed, AttributeKeys(a))
    requires t.properties == PayloadProperties(a) + AttributeProperties(AttributeKeys(a))
    ensures SchemaOf(a, t)
  {
    assert t.required[|PayloadRequired(a)|..] == listed;
    assert t.required[..|PayloadRequired(a)|] == PayloadRequired(a);
  }

  /** The state of the attribute loop once the keys in `done` are added. */
  ghost predicate AttributesAdded(required0: seq<string>, properties0: map<string, Property>,
                                  required: seq<string>, properties: map<string, Property>,
                                  listed: seq<string>, done: set<string>) {
    && required == required0 + listed
    && KeyListing(listed, done)
    && properties == properties0 + AttributeProperties(done)
  }

  lemma AttributesAddedStep(required0: seq<string>, properties0: map<string, Property>,
                            required: seq<string>, properties: map<string, Property>,
                            listed: seq<string>, done: set<string>, name: string)
    requires AttributesAdded(required0, properties0, required, properties, listed, done)
    requires name !in done
    ensures AttributesAdded(required0, properties0, required + [name], properties[name := Property("string", name)],
                            listed + [name], done + {name})
  {
    UnionUpdate(properties0, AttributeProperties(done), name, Property("string", name));
    KeyListingAdd(listed, done, name);
    AttributePropertiesAdd(done, name);
    assert required + [name] == required0 + (listed + [name]);
  }

  lemma AttributesAddedStart(required0: seq<string>, properties0: map<string, Property>)
    ensures AttributesAdded(required0, properties0, required0, properties0, [], {})
  {
    assert AttributeProperties({}) == map[];
    assert properties0 + map[] == properties0;
    assert required0 + [] == required0;
  }

  /** The inner `for name in attrs.keys()` loop: one required string parameter per key. */
  method AddAttributeParameters(required0: seq<string>, properties0: map<string, Property>,
                                attrs: map<string, string>)
    returns (required: seq<string>, properties: map<string, Property>, ghost listed: seq<string>)
    ensures required == required0 + listed
    ensures KeyListing(listed, attrs.Keys)
    ensures properties == properties0 + AttributeProperties(attrs.Keys)
  {
    required, properties, listed := required0, properties0, [];
    var remaining := attrs.Keys;
    ghost var done: set<string> := {};
    AttributesAddedStart(required0, properties0);
    while remaining != {}
      invariant remaining + done == attrs.Keys && remaining !! done
      invariant AttributesAdded(required0, properties0, required, properties, listed, done)
      decreases |remaining|
    {
      var name :| name in remaining;
      AttributesAddedStep(required0, properties0, required, properties, listed, done, name);
      required := required + [name];
      properties := properties[name := Property("string", name)];
      listed := listed + [name];
      done := done + {name};
      remaining := remaining - {name};
    }
    assert done == attrs.Keys;
  }

  lemma AllActionsStep(namespaces: seq<Namespace>, g: nat)
    requires g < |namespaces|
    ensures AllActions(namespaces[..g + 1]) == AllActions(namespaces[..g]) + namespaces[g].actions
  {
    assert namespaces[..g + 1][..g] == namespaces[..g];
  }

  /** The tool list sent to the provider: one schema per action, in registry order. */
  method BuildTools(namespaces: seq<Namespace>) returns (tools: seq<Tool>)
    ensures |tools| == |AllActions(namespaces)|
    ensures forall i :: 0 <= i < |tools| ==> SchemaOf(AllActions(namespaces)[i], tools[i])
  {
    tools := [];
    var g := 0;
    while g < |namespaces|
      invariant 0 <= g <= |namespaces|
      invariant |tools| == |AllActions(namespaces[..g])|
      invariant forall i :: 0 <= i < |tools| ==> SchemaOf(AllActions(namespaces[..g])[i], tools[i])
    {
      var actions := namespaces[g].actions;
      ghost var done := AllActions(namespaces[..g]);
      var j := 0;
      while j < |actions|
        invariant 0 <= j <= |actions|
        invariant |tools| == |done| + j
        invariant forall i :: 0 <= i < |tools| ==> SchemaOf((done + actions[..j])[i], tools[i])
      {
        var t := BuildTool(actions[j]);
        assert done + actions[..j + 1] == (done + actions[..j]) + [actions[j]];
        tools := tools + [t];
        j := j + 1;
      }
      AllActionsStep(namespaces, g);
      assert actions[..j] == actions;
      g := g + 1;
    }
    assert namespaces[..g] == namespaces;
  }

  /** What a required list of a schema for `a` holds: the payload first, when present, then each key once. */
  lemma RequiredFacts(a: Action, required: seq<string>)
    requires RequiredOf(a, required)
    ensures |required| == |PayloadRequired(a)| + |AttributeKeys(a)|
    ensures forall k :: k in required <==> k in PayloadRequired(a) || k in AttributeKeys(a)
    ensures a.examplePayload.Some? ==> required[0] == "payload"
  {
    var p := |PayloadRequired(a)|;
    var head, tail := required[..p], required[p..];
    assert required == head + tail;
    assert head == PayloadRequired(a);
    forall k
      ensures k in required <==> k in PayloadRequired(a) || k in AttributeKeys(a)
    {
      assert k in required <==> k in head || k in tail;
      assert k in tail <==> k in AttributeKeys(a);
    }
    if a.examplePayload.Some? {
      assert head[0] == "payload";
    }
  }

  /**
   * Synthesis is deterministic up to the order of the attribute keys: two
   * schemas for the same action agree on everything else, and list the same
   * required names (payload first, when present).
   */
  lemma SchemaDeterminedUpToKeyOrder(a: Action, t1: Tool, t2: Tool)
    requires SchemaOf(a, t1) && SchemaOf(a, t2)
    ensures t1.(required := t2.required) == t2
    ensures |t1.required| == |t2.required|
    ensures forall k :: k in t1.required <==> k in t2.required
    ensures a.examplePayload.Some? ==> t1.required[0] == "payload" == t2.required[0]
  {
    RequiredFacts(a, t1.required);
    RequiredFacts(a, t2.required);
  }

  /**
   * The payload rule for an action whose example attributes do not use the
   * key `payload`: `payload` is required, listed first and described by the
   * template exactly when the action has an example payload.
   */
  lemma PayloadRule(a: Action, t: Tool)
    requires SchemaOf(a, t)
    requires "payload" !in AttributeKeys(a)
    ensures ("payload" in t.required) <==> a.examplePayload.Some?
    ensures ("payload" in t.properties) <==> a.examplePayload.Some?
    ensures a.examplePayload.Some? ==>
      t.required[0] == "payload"
      && t.properties["payload"] == Property("string", PayloadTemplate + a.examplePayload.value)
  {
    RequiredFacts(a, t.required);
  }

  /** Every example attribute key is a required string property described by its own name. */
  lemma AttributeRule(a: Action, t: Tool, key: string)
    requires SchemaOf(a, t)
    requires key in AttributeKeys(a)
    ensures key in t.required
    ensures key in t.properties && t.properties[key] == Property("string", key)
  {
    RequiredFacts(a, t.required);
  }

  /** An action that keeps the default hooks gets a schema with no parameters at all. */
  lemma DefaultActionSchema(name: string, description: string, t: Tool)
    requires SchemaOf(DefaultAction(name, description), t)
    ensures t.required == [] && t.properties == map[]
  {
  }
}
