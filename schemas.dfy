// The schema tree: a node wraps a schema type and carries optional
// metadata; composite types hold child nodes. Everything here is a value:
// the in-place setters of the Go node become functions returning the
// updated node.
module Schemas {
  import opened Wrappers
  import opened Values
  import opened SchemaErrors
  import opened Properties
  import opened StringTypes
  import opened IntTypes
  import opened BoolTypes
  import opened BytesTypes
  import Text

  /**
   * A decorator handler, or the processing of a type outside the model:
   * given the action and the value under the cursor it returns a value and
   * possibly an error.
   */
  type Handler = (Action, Data) -> LeafOutcome

  /** Go's `*SchemaNode`: an optional wrapped type and optional metadata. */
  datatype Node = Node(typ: Option<SchemaType>, metadata: Option<map<string, string>>)
  {
    /** Go `SchemaNode.GetMetadata`. */
    function GetMetadata(key: string): (r: (string, bool))
      ensures r == MetadataGet(metadata, key)
    {
      MetadataGet(metadata, key)
    }

    /** Go `SchemaNode.SetMetadata`: the node with `key` set in its metadata. */
    function SetMetadata(key: string, value: string): (r: Node)
      ensures r.typ == typ
      ensures r.GetMetadata(key) == (value, true)
      ensures forall k :: k != key ==> r.GetMetadata(k) == GetMetadata(k)
    {
      Node(typ, Some(MetadataSet(metadata, key, value)))
    }

    /** Go `SchemaNode.SetType`. */
    function SetType(t: SchemaType): (r: Node)
      ensures r.typ == Some(t) && r.metadata == metadata
    {
      this.(typ := Some(t))
    }
  }

  /**
   * The schema types. `Decorated` is Go's `DecoratedType`; `Wrapped` is a
   * `*SchemaNode` used where a type is expected; `Foreign` is any other type
   * (a float or date-time type, a user's own type), known by its Go type
   * name, its custom id if it has one (an error if that method fails), its
   * processing and the JSON tree of its settings.
   */
  datatype SchemaType =
    | AllOf(elements: seq<Option<Node>>, chain: ActionFlags)
    | AnyOf(elements: seq<Option<Node>>)
    | OneOf(elements: seq<Option<Node>>)
    | List(item: Option<Node>, minLen: Option<int64>, maxLen: Option<int64>)
    | Object(properties: map<string, Option<Node>>, required: seq<string>)
    | StringLeaf(stringType: StringType)
    | IntLeaf(intType: IntType)
    | BoolLeaf(boolType: BoolType)
    | BytesLeaf(bytesType: BytesType)
    | Decorated(original: Option<SchemaType>, handlers: map<Action, Handler>, defaultHandler: Option<Handler>)
    | Wrapped(node: Node)
    | Foreign(typeName: string, customId: Option<Result<string, string>>, process: Handler, body: Data)
  {
    /** Go `ListType.SetMinLen`: a copy with the lower bound set. */
    function SetMinLen(n: int64): (r: SchemaType)
      requires List?
      ensures r.List? && r.item == item && r.minLen == Some(n) && r.maxLen == maxLen
    {
      this.(minLen := Some(n))
    }

    /** Go `ListType.SetMaxLen`: a copy with the upper bound set. */
    function SetMaxLen(n: int64): (r: SchemaType)
      requires List?
      ensures r.List? && r.item == item && r.maxLen == Some(n) && r.minLen == minLen
    {
      this.(maxLen := Some(n))
    }

    /** Go `ObjectType.Require`: a copy whose required keys are replaced. */
    function Require(keys: seq<string>): (r: SchemaType)
      requires Object?
      ensures r.Object? && r.properties == properties && r.required == keys
    {
      this.(required := keys)
    }

    /** Go `AllOfType.SetChain`: a copy chaining for every action, or not. */
    function SetChain(on: bool): (r: SchemaType)
      requires AllOf?
      ensures r.AllOf? && r.elements == elements
      ensures forall a :: r.chain.GetAction(a) <==> on || a in chain.enabled
    {
      this.(chain := SetAll(Some(chain), on))
    }

    /** Go `AllOfType.SetChainActions`: a copy chaining exactly for `actions`. */
    function SetChainActions(actions: seq<Action>): (r: SchemaType)
      requires AllOf?
      ensures r.AllOf? && r.elements == elements
      ensures forall a :: r.chain.GetAction(a) <==> chain.all || a in actions
    {
      this.(chain := SetActionsOf(Some(chain), actions))
    }

    /** Go `AllOfType.UnsetChainActions`: a copy no longer chaining for `actions`. */
    function UnsetChainActions(actions: seq<Action>): (r: SchemaType)
      requires AllOf?
      ensures r.AllOf? && r.elements == elements
      ensures forall a :: r.chain.GetAction(a) <==> chain.all || (a in chain.enabled && a !in actions)
    {
      this.(chain := UnsetActionsOf(Some(chain), actions).value)
    }
  }

  // ---------------------------------------------------------------------
  // Metadata

  /** Go `(*Metadata).Get`: nil metadata holds no key. */
  function MetadataGet(m: Option<map<string, string>>, key: string): (r: (string, bool))
    ensures m.None? ==> r == ("", false)
    ensures r.1 <==> m.Some? && key in m.value
    ensures r.1 ==> r.0 == m.value[key]
    ensures !r.1 ==> r.0 == ""
  {
    if m.Some? && key in m.value then (m.value[key], true) else ("", false)
  }

  /** Go `(*Metadata).Set`: nil metadata is allocated first. */
  function MetadataSet(m: Option<map<string, string>>, key: string, value: string): (r: map<string, string>)
    ensures MetadataGet(Some(r), key) == (value, true)
    ensures forall k :: k != key ==> MetadataGet(Some(r), k) == MetadataGet(m, k)
  {
    m.GetOr(map[])[key := value]
  }

  /** Reading, setting and overwriting a key of a node without metadata. */
  lemma MetadataScenario(t: Option<SchemaType>)
    ensures Node(t, None).GetMetadata("foo") == ("", false)
    ensures Node(t, None).SetMetadata("foo", "bar").GetMetadata("foo") == ("bar", true)
    ensures Node(t, None).SetMetadata("foo", "bar").SetMetadata("foo", "baz").GetMetadata("foo") == ("baz", true)
  {
  }

  // ---------------------------------------------------------------------
  // Wrapping types into nodes

  /** Go `Schema`: a node is returned as it is, any other type gets a new node. */
  function Schema(t: SchemaType): (n: Node)
    ensures t.Wrapped? ==> n == t.node
    ensures !t.Wrapped? ==> n == Node(Some(t), None)
  {
    if t.Wrapped? then t.node else Node(Some(t), None)
  }

  /** Wrapping is idempotent: a node wrapped again is the same node. */
  lemma SchemaIdempotent(t: SchemaType)
    ensures Schema(Wrapped(Schema(t))) == Schema(t)
  {
  }

  /**
   * Go `L.SchemaList` as a value: each type wrapped into a node, nil kept
   * as nil, in order.
   */
  function Nodes(ts: seq<Option<SchemaType>>): (r: seq<Option<Node>>)
    ensures |r| == |ts|
    ensures forall i :: 0 <= i < |ts| ==> (r[i].None? <==> ts[i].None?)
    ensures forall i :: 0 <= i < |ts| && ts[i].Some? ==> r[i].value == Schema(ts[i].value)
  {
    seq(|ts|, i requires 0 <= i < |ts| => if ts[i].Some? then Some(Schema(ts[i].value)) else None)
  }

  /** Go `L.SchemaList`: appends each wrapped type, or nil, to a new list. */
  method SchemaList(ts: seq<Option<SchemaType>>) returns (list: seq<Option<Node>>)
    ensures list == Nodes(ts)
  {
    list := [];
    for i := 0 to |ts|
      invariant list == Nodes(ts[..i])
    {
      assert ts[..i + 1] == ts[..i] + [ts[i]];
      if ts[i].Some? {
        list := list + [Some(Schema(ts[i].value))];
      } else {
        list := list + [None];
      }
    }
    assert ts[..|ts|] == ts;
  }

  /** Go `O.SchemaMap` as a value: every key kept, types wrapped, nil kept as nil. */
  function NodeMap(o: map<string, Option<SchemaType>>): (r: map<string, Option<Node>>)
    ensures r.Keys == o.Keys
    ensures forall k :: k in o ==> (r[k].None? <==> o[k].None?)
    ensures forall k :: k in o && o[k].Some? ==> r[k].value == Schema(o[k].value)
  {
    map k | k in o :: if o[k].Some? then Some(Schema(o[k].value)) else None
  }

  /** Go `O.SchemaMap`: fills a new map key by key, in any order. */
  method SchemaMap(o: map<string, Option<SchemaType>>) returns (m: map<string, Option<Node>>)
    ensures m == NodeMap(o)
  {
    m := map[];
    var remaining := o.Keys;
    while remaining != {}
      invariant remaining <= o.Keys
      invariant m.Keys == o.Keys - remaining
      invariant forall k :: k in m ==> m[k] == NodeMap(o)[k]
      decreases remaining
    {
      var k :| k in remaining;
      if o[k].Some? {
        m := m[k := Some(Schema(o[k].value))];
      } else {
        m := m[k := None];
      }
      remaining := remaining - {k};
    }
  }

  /** Go `AllOf(...)`: the wrapped types, chaining off. */
  function NewAllOf(ts: seq<Option<SchemaType>>): (t: SchemaType)
    ensures t.AllOf? && t.elements == Nodes(ts) && t.chain == NoFlags
  {
    AllOf(Nodes(ts), NoFlags)
  }

  /** Go `AnyOf(...)`. */
  function NewAnyOf(ts: seq<Option<SchemaType>>): (t: SchemaType)
    ensures t.AnyOf? && t.elements == Nodes(ts)
  {
    AnyOf(Nodes(ts))
  }

  /** Go `OneOf(...)`. */
  function NewOneOf(ts: seq<Option<SchemaType>>): (t: SchemaType)
    ensures t.OneOf? && t.elements == Nodes(ts)
  {
    OneOf(Nodes(ts))
  }

  /** Go `List(schema)`: a nil item type stays nil; no bounds. */
  function NewList(item: Option<SchemaType>): (t: SchemaType)
    ensures t.List? && t.minLen.None? && t.maxLen.None?
    ensures t.item.None? <==> item.None?
    ensures item.Some? ==> t.item == Some(Schema(item.value))
  {
    List(if item.Some? then Some(Schema(item.value)) else None, None, None)
  }

  /** Go `Object(properties)`: no required keys. */
  function NewObject(o: map<string, Option<SchemaType>>): (t: SchemaType)
    ensures t.Object? && t.properties == NodeMap(o) && t.required == []
  {
    Object(NodeMap(o), [])
  }

  // ---------------------------------------------------------------------
  // Children

  /**
   * Go `SchemaNode.Children`: an error without a type; the node's direct
   * children for the types that have some (the element list, the list's
   * item type, the object's property nodes in the order Go's map iteration
   * yields them, here the sorted key order); nothing for any other type.
   */
  ghost function Children(n: Node): (r: Result<seq<Option<Node>>, Cause>)
    ensures n.typ.None? <==> r.Err?
    ensures r.Err? ==> r.error == NoSchemaTypeSet
    ensures r.Ok? && (n.typ.value.AllOf? || n.typ.value.AnyOf? || n.typ.value.OneOf?) ==> r.value == n.typ.value.elements
    ensures r.Ok? && n.typ.value.List? ==> r.value == [n.typ.value.item]
    ensures r.Ok? && n.typ.value.Object? ==>
              |r.value| == |n.typ.value.properties| &&
              (forall k :: k in n.typ.value.properties ==> n.typ.value.properties[k] in r.value) &&
              (forall c :: c in r.value ==> exists k :: k in n.typ.value.properties && n.typ.value.properties[k] == c)
    ensures r.Ok? && !(n.typ.value.AllOf? || n.typ.value.AnyOf? || n.typ.value.OneOf? || n.typ.value.List? || n.typ.value.Object?) ==> r.value == []
  {
    match n.typ
    case None => Err(NoSchemaTypeSet)
    case Some(t) =>
      match t
      case AllOf(elements, _) => Ok(elements)
      case AnyOf(elements) => Ok(elements)
      case OneOf(elements) => Ok(elements)
      case List(item, _, _) => Ok([item])
      case Object(properties, _) =>
        var keys := Text.SortedList(properties.Keys);
        var r := seq(|keys|, i requires 0 <= i < |keys| => properties[keys[i]]);
        assert forall k :: k in properties ==> properties[k] in r by {
          forall k | k in properties ensures properties[k] in r {
            var i :| 0 <= i < |keys| && keys[i] == k;
            assert r[i] == properties[k];
          }
        }
        Ok(r)
      case _ => Ok([])
  }

  // ---------------------------------------------------------------------
  // Type ids

  /** The id a node used as a type gets from its Go type name. */
  const NodeTypeId := "pongo.SchemaNode"

  /**
   * Go `SchemaTypeID`: a type with its own id method answers with it (its
   * error included); a decorator answers with the id of the type it wraps
   * and fails without one; any other type is named after its Go type, the
   * leading `*` removed.
   */
  function SchemaTypeID(t: SchemaType): (r: Result<string, Cause>)
    ensures r.Err? ==> r.error == InvalidSchemaType || r.error.Custom?
    ensures t.Decorated? && t.original.None? ==> r == Err(InvalidSchemaType)
    ensures t.Foreign? && t.customId.None? && |t.typeName| > 0 ==> r == Ok(t.typeName[1..])
  {
    match t
    case AllOf(_, _) => Ok("allOf")
    case AnyOf(_) => Ok("anyOf")
    case OneOf(_) => Ok("oneOf")
    case List(_, _, _) => Ok("list")
    case Object(_, _) => Ok("object")
    case StringLeaf(_) => Ok("string")
    case IntLeaf(_) => Ok("int")
    case BoolLeaf(_) => Ok("bool")
    case BytesLeaf(_) => Ok("bytes")
    case Decorated(original, _, _) =>
      if original.Some? then SchemaTypeID(original.value) else Err(InvalidSchemaType)
    case Wrapped(_) => Ok(NodeTypeId)
    case Foreign(typeName, customId, _, _) =>
      match customId
      case Some(Ok(id)) => Ok(id)
      case Some(Err(message)) => Err(Custom(message))
      case None => Ok(if |typeName| > 0 then typeName[1..] else "")
  }

  /** A decorator has the id of the type it decorates, however deeply nested. */
  lemma {:induction false} DecoratedId(t: SchemaType, h: map<Action, Handler>, d: Option<Handler>)
    ensures SchemaTypeID(Decorated(Some(t), h, d)) == SchemaTypeID(t)
    ensures SchemaTypeID(Decorated(Some(Decorated(Some(t), h, d)), map[], None)) == SchemaTypeID(t)
  {
  }

  /** A type without its own id is named by its Go type name. */
  lemma DerivedId(process: Handler)
    ensures SchemaTypeID(Foreign("*tests.TestDummySchemaType", None, process, Map(map[]))) == Ok("tests.TestDummySchemaType")
  {
    assert "*tests.TestDummySchemaType"[1..] == "tests.TestDummySchemaType";
  }

  // ---------------------------------------------------------------------
  // Well-formedness

  /**
   * No nil node where processing would dereference one: every element of
   * allOf, anyOf and oneOf and every property of an object is a node, and
   * so are their descendants. A nil list item is allowed: the list reports
   * it as an error.
   */
  predicate NilFree(n: Node)
    decreases n, 1
  {
    n.typ.Some? ==> TypeNilFree(n.typ.value)
  }

  predicate TypeNilFree(t: SchemaType)
    decreases t, 0
  {
    match t
    case AllOf(elements, _) => forall i :: 0 <= i < |elements| ==> elements[i].Some? && NilFree(elements[i].value)
    case AnyOf(elements) => forall i :: 0 <= i < |elements| ==> elements[i].Some? && NilFree(elements[i].value)
    case OneOf(elements) => forall i :: 0 <= i < |elements| ==> elements[i].Some? && NilFree(elements[i].value)
    case List(item, _, _) => item.Some? ==> NilFree(item.value)
    case Object(properties, _) => forall k :: k in properties ==> properties[k].Some? && NilFree(properties[k].value)
    case Decorated(original, _, _) => original.Some? ==> TypeNilFree(original.value)
    case Wrapped(node) => NilFree(node)
    case _ => true
  }

  // ---------------------------------------------------------------------
  // The decorator, updated in place

  /** Go's `*DecoratedType`, whose handler table its pointer methods change. */
  class Decorator {
    var original: Option<SchemaType>
    var handlers: map<Action, Handler>
    var defaultHandler: Option<Handler>

    /** The decorator as a schema type. */
    function Value(): (t: SchemaType)
      reads this
      ensures t.Decorated?
    {
      Decorated(original, handlers, defaultHandler)
    }

    /** Go `Decorate`: no handlers yet. */
    constructor (t: Option<SchemaType>)
      ensures original == t && handlers == map[] && defaultHandler.None?
    {
      original := t;
      handlers := map[];
      defaultHandler := None;
    }

    method SetDefaultHandler(h: Handler)
      modifies this
      ensures original == old(original) && handlers == old(handlers) && defaultHandler == Some(h)
    {
      defaultHandler := Some(h);
    }

    method UnsetDefaultHandler()
      modifies this
      ensures original == old(original) && handlers == old(handlers) && defaultHandler.None?
    {
      defaultHandler := None;
    }

    /** Registers `h` for each of `actions`, replacing earlier handlers for them. */
    method SetHandlers(h: Handler, actions: seq<Action>)
      modifies this
      ensures original == old(original) && defaultHandler == old(defaultHandler)
      ensures handlers.Keys == old(handlers).Keys + (set a | a in actions)
      ensures forall a :: a in actions ==> handlers[a] == h
      ensures forall a :: a in old(handlers) && a !in actions ==> handlers[a] == old(handlers)[a]
    {
      for i := 0 to |actions|
        invariant original == old(original) && defaultHandler == old(defaultHandler)
        invariant handlers.Keys == old(handlers).Keys + (set a | a in actions[..i])
        invariant forall a :: a in actions[..i] ==> handlers[a] == h
        invariant forall a :: a in old(handlers) && a !in actions[..i] ==> handlers[a] == old(handlers)[a]
      {
        assert actions[..i + 1] == actions[..i] + [actions[i]];
        handlers := handlers[actions[i] := h];
      }
      assert actions[..|actions|] == actions;
    }

    /** Removes the handlers of `actions` only. */
    method UnsetHandlers(actions: seq<Action>)
      modifies this
      ensures original == old(original) && defaultHandler == old(defaultHandler)
      ensures handlers.Keys == old(handlers).Keys - (set a | a in actions)
      ensures forall a :: a in handlers ==> handlers[a] == old(handlers)[a]
    {
      for i := 0 to |actions|
        invariant original == old(original) && defaultHandler == old(defaultHandler)
        invariant handlers.Keys == old(handlers).Keys - (set a | a in actions[..i])
        invariant forall a :: a in handlers ==> handlers[a] == old(handlers)[a]
      {
        assert actions[..i + 1] == actions[..i] + [actions[i]];
        handlers := handlers - {actions[i]};
      }
      assert actions[..|actions|] == actions;
    }
  }
}
