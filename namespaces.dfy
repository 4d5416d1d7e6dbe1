/**
 * The namespace/action vocabulary of the agent (src/agent/namespaces/mod.rs):
 * storage descriptors, namespaces, the Action capability contract with its
 * default hooks, action outputs and their rendering, and the insertion-ordered
 * registry of built-in namespace names.
 */
module Namespaces {
  import opened Wrappers

  // ---------------------------------------------------------------------------
  // Storage descriptors

  /** The update-retention policy of a storage (defined in the state module). */
  datatype StorageType = Tagged | Untagged | CurrentPrevious | Completion | Time

  datatype StorageDescriptor = StorageDescriptor(
    name: string,
    storageType: StorageType,
    predefined: Option<map<string, string>>)

  function TaggedStorage(name: string): StorageDescriptor {
    StorageDescriptor(name, Tagged, None)
  }

  function UntaggedStorage(name: string): StorageDescriptor {
    StorageDescriptor(name, Untagged, None)
  }

  function PreviousCurrentStorage(name: string): StorageDescriptor {
    StorageDescriptor(name, CurrentPrevious, None)
  }

  function CompletionStorage(name: string): StorageDescriptor {
    StorageDescriptor(name, Completion, None)
  }

  function TimeStorage(name: string): StorageDescriptor {
    StorageDescriptor(name, Time, None)
  }

  /** The constructor that produces storages of a given type. */
  function ConstructorFor(t: StorageType): string -> StorageDescriptor {
    match t
    case Tagged => TaggedStorage
    case Untagged => UntaggedStorage
    case CurrentPrevious => PreviousCurrentStorage
    case Completion => CompletionStorage
    case Time => TimeStorage
  }

  /**
   * Every storage type has a constructor, and that constructor keeps the name,
   * tags the descriptor with exactly that type and seeds nothing.
   */
  lemma ConstructorsTagTheirType(t: StorageType, name: string)
    ensures ConstructorFor(t)(name).storageType == t
    ensures ConstructorFor(t)(name).name == name
    ensures ConstructorFor(t)(name).predefined == None
  {
  }

  /** `StorageDescriptor::predefine`: installs a seed mapping. */
  function Predefine(d: StorageDescriptor, what: map<string, string>): (r: StorageDescriptor)
    ensures r.name == d.name && r.storageType == d.storageType
    ensures r.predefined == Some(what)
  {
    d.(predefined := Some(what))
  }

  /** Predefining again replaces the earlier seed; only the last one counts. */
  lemma PredefineLastWins(d: StorageDescriptor, first: map<string, string>, second: map<string, string>)
    ensures Predefine(Predefine(d, first), second) == Predefine(d, second)
  {
  }

  // ---------------------------------------------------------------------------
  // Actions

  /**
   * The Action capability contract, with each optional hook as a field.
   * Timeouts are whole milliseconds. `run` is an action body and is not part
   * of this model.
   */
  datatype Action = Action(
    name: string,
    description: string,
    timeout: Option<nat>,
    exampleAttributes: Option<map<string, string>>,
    examplePayload: Option<string>,
    requiredVariables: Option<seq<string>>,
    requiresUserConfirmation: bool,
    completeTask: bool)

  /** An action that overrides none of the optional hooks. */
  function DefaultAction(name: string, description: string): (a: Action)
    ensures a.name == name && a.description == description
    ensures a.timeout == None && a.exampleAttributes == None
    ensures a.examplePayload == None && a.requiredVariables == None
    ensures !a.requiresUserConfirmation && !a.completeTask
  {
    Action(name, description, None, None, None, None, false, false)
  }

  // ---------------------------------------------------------------------------
  // Namespaces

  datatype Namespace = Namespace(
    name: string,
    description: string,
    actions: seq<Action>,
    storages: Option<seq<StorageDescriptor>>,
    isDefault: bool)

  function NewNonDefault(name: string, description: string, actions: seq<Action>,
                         storages: Option<seq<StorageDescriptor>>): (ns: Namespace)
    ensures !ns.isDefault
  {
    Namespace(name, description, actions, storages, false)
  }

  function NewDefault(name: string, description: string, actions: seq<Action>,
                      storages: Option<seq<StorageDescriptor>>): (ns: Namespace)
    ensures ns.isDefault
  {
    Namespace(name, description, actions, storages, true)
  }

  /**
   * The two namespace constructors pass name, description, actions and
   * storages through unchanged and differ only in the `default` flag.
   */
  lemma NamespaceConstructorsAgree(name: string, description: string, actions: seq<Action>,
                                   storages: Option<seq<StorageDescriptor>>)
    ensures NewDefault(name, description, actions, storages)
         == NewNonDefault(name, description, actions, storages).(isDefault := true)
    ensures var ns := NewNonDefault(name, description, actions, storages);
      ns.name == name && ns.description == description && ns.actions == actions && ns.storages == storages
  {
  }

  // ---------------------------------------------------------------------------
  // Action outputs

  datatype ActionOutput = Text(text: string) | Image(data: string, mimeType: string)

  /** `From<String>` / `From<&str>` / `ActionOutput::text`. */
  function FromText(text: string): (o: ActionOutput)
    ensures o.Text? && o.text == text
  {
    Text(text)
  }

  /** `Display for ActionOutput`: text verbatim, an image as `image: <data> (<mime>)`. */
  function Display(o: ActionOutput): (r: string)
    ensures o.Text? ==> r == o.text
    ensures o.Image? ==> |r| == |o.data| + |o.mimeType| + 10 && r[7..7 + |o.data|] == o.data
                         && r[9 + |o.data|..|r| - 1] == o.mimeType
  {
    match o
    case Text(text) => text
    case Image(data, mimeType) => "image: " + data + " (" + mimeType + ")"
  }

  /** Text renders verbatim, so rendering undoes `From`. */
  lemma DisplayFromText(text: string)
    ensures Display(FromText(text)) == text
  {
  }

  /** An image renders as `image: <data> (<mime>)`; data and MIME type are recoverable from the rendering. */
  lemma DisplayImage(data: string, mimeType: string)
    ensures var r := Display(Image(data, mimeType));
      |r| == 7 + |data| + 2 + |mimeType| + 1
      && r[..7] == "image: " && r[7..7 + |data|] == data
      && r[7 + |data|..9 + |data|] == " (" && r[9 + |data|..|r| - 1] == mimeType && r[|r| - 1] == ')'
  {
  }

  // ---------------------------------------------------------------------------
  // The registry of built-in namespaces

  /** `IndexMap::insert` on the key order: a new key goes last, a known key keeps its place. */
  function IndexInsert(keys: seq<string>, key: string): (r: seq<string>)
    ensures key in r
    ensures key !in keys ==> r == keys + [key]
    ensures key in keys ==> r == keys
  {
    if key in keys then keys else keys + [key]
  }

  function InsertAll(keys: seq<string>, more: seq<string>): seq<string>
    decreases |more|
  {
    if more == [] then keys else InsertAll(IndexInsert(keys, more[0]), more[1..])
  }

  predicate Distinct(s: seq<string>) {
    forall i, j :: 0 <= i < j < |s| ==> s[i] != s[j]
  }

  /** No key of `b` is in `a`. */
  predicate Disjoint(a: seq<string>, b: seq<string>) {
    forall k :: k in b ==> k !in a
  }

  lemma DistinctTail(s: seq<string>)
    requires Distinct(s) && s != []
    ensures Distinct(s[1..]) && s[0] !in s[1..]
  {
    var t := s[1..];
    forall i, j | 0 <= i < j < |t|
      ensures t[i] != t[j]
    {
      assert t[i] == s[i + 1] && t[j] == s[j + 1];
    }
  }

  /** Inserting distinct new keys one by one keeps them in insertion order. */
  lemma {:induction false} InsertAllAppends(keys: seq<string>, more: seq<string>)
    requires Distinct(more) && Disjoint(keys, more)
    ensures InsertAll(keys, more) == keys + more
    decreases |more|
  {
    if more != [] {
      var next := keys + [more[0]];
      assert IndexInsert(keys, more[0]) == next;
      DistinctTail(more);
      assert Disjoint(next, more[1..]) by {
        forall k | k in more[1..]
          ensures k !in next
        {
          assert k in more && k != more[0];
        }
      }
      InsertAllAppends(next, more[1..]);
      assert next + more[1..] == keys + more;
    } else {
      assert keys + more == keys;
    }
  }

  /** The names of the built-in namespaces, in registration order. */
  const RegisteredNames: seq<string> := ["memory", "time", "goal", "planning", "task", "filesystem", "rag", "http", "shell"]

  /** The key order of the `NAMESPACES` registry, built by successive inserts. */
  function NamespaceNames(): seq<string> {
    InsertAll([], RegisteredNames)
  }

  lemma RegisteredNamesDistinct()
    ensures Distinct(RegisteredNames)
  {
    var names := RegisteredNames;
    forall i, j | 0 <= i < j < |names|
      ensures names[i] != names[j]
    {
      assert |names[i]| != |names[j]| || names[i][0] != names[j][0] || names[i][1] != names[j][1];
    }
  }

  /** The registry holds nine distinct names in a fixed order. */
  lemma NamespaceNamesOrder()
    ensures NamespaceNames()
         == ["memory", "time", "goal", "planning", "task", "filesystem", "rag", "http", "shell"]
    ensures |NamespaceNames()| == 9 && Distinct(NamespaceNames())
  {
    RegisteredNamesDistinct();
    InsertAllAppends([], RegisteredNames);
    assert [] + RegisteredNames == RegisteredNames;
  }
}
