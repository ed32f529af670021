// The JSON form of schemas. A node is the object {"$type", "$body",
// "$metadata"}; a whole schema travels in the envelope {"$version": "1.0",
// "$body", "$metadata"}. Decoding is two-phase: a node's "$type" is resolved
// through a registry of factories and its "$body" decoded into the fresh
// value (phase one, which leaves each child node holding its own JSON);
// then every child is decoded the same way, in the order the node lists
// its children (phase two). JSON documents are parsed trees: `Data` built
// from Null, Bool, Int (of kind GoInt), Str, Seq and Map.
module Codec {
  import opened Wrappers
  import opened Values
  import opened SchemaErrors
  import opened Properties
  import opened StringTypes
  import opened IntTypes
  import opened BoolTypes
  import opened BytesTypes
  import opened Schemas
  import Text

  /** A registry's content: the value its factory returns, by type id. */
  type Factories = map<string, SchemaType>

  // ---------------------------------------------------------------------
  // Members of a JSON object

  /** `m` with a number member, which Go leaves out when the number is unset. */
  function PutNumber(m: map<string, Data>, key: string, n: Option<int64>): map<string, Data>
  {
    if n.Some? then m[key := Int(GoInt, n.value)] else m
  }

  /** `m` with a flag member, which Go leaves out when the flag pointer is nil. */
  ghost function PutFlags(m: map<string, Data>, key: string, f: Option<ActionFlags>): map<string, Data>
  {
    if f.Some? then m[key := FlagsJSON(f.value)] else m
  }

  /** An optional number member: absent keeps `current`, null unsets, an integer sets. */
  function NumberField(m: map<string, Data>, key: string, current: Option<int64>): (r: Result<Option<int64>, DecodeError>)
    ensures key !in m ==> r == Ok(current)
    ensures key in m ==> r == UnmarshalNumber(m[key])
  {
    if key !in m then Ok(current) else UnmarshalNumber(m[key])
  }

  /**
   * A flag member held through a pointer: absent keeps it, null makes the
   * pointer nil, anything else is decoded into the flag (a new one when the
   * pointer is nil).
   */
  function FlagsPointerField(m: map<string, Data>, key: string, current: Option<ActionFlags>): (r: Result<Option<ActionFlags>, DecodeError>)
    ensures key !in m ==> r == Ok(current)
    ensures key in m && m[key].Null? ==> r == Ok(None)
  {
    if key !in m then Ok(current)
    else if m[key].Null? then Ok(None)
    else
      var f := UnmarshalFlags(current.GetOr(NoFlags), m[key]);
      if f.Err? then Err(f.error) else Ok(Some(f.value))
  }

  /** A flag member held by value: absent keeps it, anything else (null too) goes to the flag's decoder. */
  function FlagsValueField(m: map<string, Data>, key: string, current: ActionFlags): (r: Result<ActionFlags, DecodeError>)
    ensures key !in m ==> r == Ok(current)
  {
    if key !in m then Ok(current) else UnmarshalFlags(current, m[key])
  }

  /** The JSON of node metadata: an object of strings. */
  function MetadataJSON(md: map<string, string>): (j: Data)
    ensures j.Map? && j.entries.Keys == md.Keys
  {
    Map(map k | k in md :: Str(md[k]))
  }

  predicate IsMetadataJSON(j: Data)
  {
    j.Map? && forall k :: k in j.entries ==> j.entries[k].Str?
  }

  function MetadataOf(j: Data): (md: map<string, string>)
    requires IsMetadataJSON(j)
    ensures md.Keys == j.entries.Keys
  {
    map k | k in j.entries :: j.entries[k].s
  }

  /** Metadata decodes back to itself. */
  lemma MetadataRoundTrip(md: map<string, string>)
    ensures IsMetadataJSON(MetadataJSON(md)) && MetadataOf(MetadataJSON(md)) == md
  {
  }

  /** The JSON strings of a list of keys, decoded back. */
  function StringsOf(items: seq<Data>): (r: seq<string>)
    requires forall i :: 0 <= i < |items| ==> items[i].Str?
    ensures |r| == |items| && forall i :: 0 <= i < |items| ==> r[i] == items[i].s
  {
    seq(|items|, i requires 0 <= i < |items| => items[i].s)
  }

  // ---------------------------------------------------------------------
  // Leaf types

  /** Go `StringType` through its struct tags. */
  ghost function StringJSON(s: StringType): map<string, Data>
  {
    PutNumber(PutNumber(PutFlags(map[], "cast", s.cast), "minLen", s.minLen), "maxLen", s.maxLen)
  }

  function StringFromJSON(s: StringType, m: map<string, Data>): (r: Result<StringType, DecodeError>)
  {
    var cast := FlagsPointerField(m, "cast", s.cast);
    var lo := NumberField(m, "minLen", s.minLen);
    var hi := NumberField(m, "maxLen", s.maxLen);
    if cast.Err? then Err(cast.error)
    else if lo.Err? then Err(lo.error)
    else if hi.Err? then Err(hi.error)
    else Ok(StringType(cast.value, lo.value, hi.value))
  }

  /** Go `IntType` through its struct tags. */
  ghost function IntJSON(t: IntType): map<string, Data>
  {
    PutNumber(PutNumber(PutFlags(map[], "cast", t.cast), "min", t.min), "max", t.max)
  }

  function IntFromJSON(t: IntType, m: map<string, Data>): (r: Result<IntType, DecodeError>)
  {
    var cast := FlagsPointerField(m, "cast", t.cast);
    var lo := NumberField(m, "min", t.min);
    var hi := NumberField(m, "max", t.max);
    if cast.Err? then Err(cast.error)
    else if lo.Err? then Err(lo.error)
    else if hi.Err? then Err(hi.error)
    else Ok(IntType(cast.value, lo.value, hi.value))
  }

  /** Go `BoolType` through its struct tag. */
  ghost function BoolJSON(t: BoolType): map<string, Data>
  {
    PutFlags(map[], "cast", t.cast)
  }

  function BoolFromJSON(t: BoolType, m: map<string, Data>): (r: Result<BoolType, DecodeError>)
  {
    var cast := FlagsPointerField(m, "cast", t.cast);
    if cast.Err? then Err(cast.error) else Ok(BoolType(cast.value))
  }

  /**
   * Go `BytesType.MarshalJSON`: the flag only when it is on for something,
   * each bound only when it is set, the lower one under "minLen".
   */
  ghost function BytesJSON(b: BytesType): map<string, Data>
  {
    var m := if b.cast.Empty() then map[] else map["cast" := FlagsJSON(b.cast)];
    PutNumber(PutNumber(m, "minLen", b.minLen), "maxLen", b.maxLen)
  }

  /** Decoding a bytes type with the lower bound read from the member named `minKey`. */
  function BytesFromMembers(b: BytesType, m: map<string, Data>, minKey: string): (r: Result<BytesType, DecodeError>)
  {
    var cast := FlagsValueField(m, "cast", b.cast);
    var hi := NumberField(m, "maxLen", b.maxLen);
    var lo := NumberField(m, minKey, b.minLen);
    if cast.Err? then Err(cast.error)
    else if hi.Err? then Err(hi.error)
    else if lo.Err? then Err(lo.error)
    else Ok(BytesType(cast.value, hi.value, lo.value))
  }

  /**
   * Go's decoder for `BytesType` as written: the lower bound's struct tag
   * is "mixLen", so the "minLen" member the encoder writes is ignored.
   */
  function BytesFromJSONAsWritten(b: BytesType, m: map<string, Data>): (r: Result<BytesType, DecodeError>)
    ensures "minLen" in m && "mixLen" !in m && r.Ok? ==> r.value.minLen == b.minLen
  {
    BytesFromMembers(b, m, "mixLen")
  }

  /** The decoder for `BytesType` with the tag the encoder uses. */
  function BytesFromJSON(b: BytesType, m: map<string, Data>): (r: Result<BytesType, DecodeError>)
  {
    BytesFromMembers(b, m, "minLen")
  }

  /** A flag whose JSON form loses nothing: one on for all actions lists none individually. */
  predicate NormalFlags(f: ActionFlags)
  {
    f.all ==> f.enabled == {}
  }

  predicate NormalCast(f: Option<ActionFlags>)
  {
    f.Some? ==> NormalFlags(f.value)
  }

  lemma FlagsBack(f: ActionFlags)
    requires NormalFlags(f)
    ensures UnmarshalFlags(NoFlags, FlagsJSON(f)) == Ok(f)
  {
    FlagsRoundTrip(f);
  }

  /** A flag member written by `PutFlags` decodes back into a nil pointer. */
  lemma FlagsMemberBack(m: map<string, Data>, key: string, f: Option<ActionFlags>)
    requires NormalCast(f)
    ensures FlagsPointerField(PutFlags(m, key, f), key, None) == Ok(f) || (f.None? && key in m)
    ensures f.None? && key !in m ==> FlagsPointerField(PutFlags(m, key, f), key, None) == Ok(None)
  {
    if f.Some? {
      FlagsBack(f.value);
    }
  }

  /** A number member written by `PutNumber` decodes back. */
  lemma NumberMemberBack(m: map<string, Data>, key: string, n: Option<int64>)
    requires key !in m
    ensures NumberField(PutNumber(m, key, n), key, None) == Ok(n)
  {
  }

  /** The string type decodes from its JSON into the fresh value the factory gives. */
  lemma StringRoundTrip(s: StringType)
    requires NormalCast(s.cast)
    ensures StringFromJSON(NewString, StringJSON(s)) == Ok(s)
    ensures StringJSON(s) == map[] ==> s == NewString
  {
    var m0 := PutFlags(map[], "cast", s.cast);
    var m1 := PutNumber(m0, "minLen", s.minLen);
    var m := PutNumber(m1, "maxLen", s.maxLen);
    FlagsMemberBack(map[], "cast", s.cast);
    NumberMemberBack(m0, "minLen", s.minLen);
    NumberMemberBack(m1, "maxLen", s.maxLen);
    assert FlagsPointerField(m, "cast", None) == FlagsPointerField(m0, "cast", None);
    assert NumberField(m, "minLen", None) == NumberField(m1, "minLen", None);
  }

  lemma IntRoundTrip(t: IntType)
    requires NormalCast(t.cast)
    ensures IntFromJSON(NewInt, IntJSON(t)) == Ok(t)
    ensures IntJSON(t) == map[] ==> t == NewInt
  {
    var m0 := PutFlags(map[], "cast", t.cast);
    var m1 := PutNumber(m0, "min", t.min);
    var m := PutNumber(m1, "max", t.max);
    FlagsMemberBack(map[], "cast", t.cast);
    NumberMemberBack(m0, "min", t.min);
    NumberMemberBack(m1, "max", t.max);
    assert FlagsPointerField(m, "cast", None) == FlagsPointerField(m0, "cast", None);
    assert NumberField(m, "min", None) == NumberField(m1, "min", None);
  }

  lemma BoolRoundTrip(t: BoolType)
    requires NormalCast(t.cast)
    ensures BoolFromJSON(NewBool, BoolJSON(t)) == Ok(t)
    ensures BoolJSON(t) == map[] ==> t == NewBool
  {
    FlagsMemberBack(map[], "cast", t.cast);
  }

  /** The bytes members, read with the lower bound under `minKey`. */
  lemma BytesMembersBack(b: BytesType, minKey: string)
    requires NormalFlags(b.cast) && minKey != "cast" && minKey != "maxLen"
    ensures BytesFromMembers(NewBytes, BytesJSON(b), minKey) ==
              Ok(b.(minLen := if minKey == "minLen" then b.minLen else None))
  {
    BytesCastBack(b);
    BytesBoundsBack(b, minKey);
  }

  /** The "cast" member of the bytes JSON decodes back to the flag. */
  lemma BytesCastBack(b: BytesType)
    requires NormalFlags(b.cast)
    ensures FlagsValueField(BytesJSON(b), "cast", NoFlags) == Ok(b.cast)
  {
    var m0: map<string, Data> := if b.cast.Empty() then map[] else map["cast" := FlagsJSON(b.cast)];
    var m1 := PutNumber(m0, "minLen", b.minLen);
    var m := PutNumber(m1, "maxLen", b.maxLen);
    if !b.cast.Empty() {
      FlagsBack(b.cast);
    }
    assert FlagsValueField(m, "cast", NoFlags) == FlagsValueField(m0, "cast", NoFlags);
  }

  /** The bound members of the bytes JSON decode back; a lower bound read under another name is unset. */
  lemma BytesBoundsBack(b: BytesType, minKey: string)
    requires minKey != "cast" && minKey != "maxLen"
    ensures NumberField(BytesJSON(b), "maxLen", None) == Ok(b.maxLen)
    ensures NumberField(BytesJSON(b), minKey, None) == Ok(if minKey == "minLen" then b.minLen else None)
  {
    var m0: map<string, Data> := if b.cast.Empty() then map[] else map["cast" := FlagsJSON(b.cast)];
    var m1 := PutNumber(m0, "minLen", b.minLen);
    var m := PutNumber(m1, "maxLen", b.maxLen);
    NumberMemberBack(m1, "maxLen", b.maxLen);
    if minKey == "minLen" {
      NumberMemberBack(m0, "minLen", b.minLen);
      assert NumberField(m, "minLen", None) == NumberField(m1, "minLen", None);
    } else {
      assert minKey !in m;
    }
  }

  /** With the tag the encoder uses, a bytes type decodes back to itself. */
  lemma BytesRoundTrip(b: BytesType)
    requires NormalFlags(b.cast)
    ensures BytesFromJSON(NewBytes, BytesJSON(b)) == Ok(b)
    ensures BytesJSON(b) == map[] ==> b == NewBytes
  {
    BytesMembersBack(b, "minLen");
  }

  /** As written, every bytes type decodes back without its lower bound. */
  lemma BytesLoseMinLen(b: BytesType)
    requires NormalFlags(b.cast)
    ensures BytesFromJSONAsWritten(NewBytes, BytesJSON(b)) == Ok(b.(minLen := None))
  {
    BytesMembersBack(b, "mixLen");
  }

  /** The smallest input that shows it: a lower bound of 2 does not survive. */
  lemma BytesMinLenExhibit()
    ensures BytesJSON(NewBytes.SetMinLen(2)) == map["minLen" := Int(GoInt, 2)]
    ensures BytesFromJSONAsWritten(NewBytes, BytesJSON(NewBytes.SetMinLen(2))) == Ok(NewBytes)
    ensures BytesFromJSON(NewBytes, BytesJSON(NewBytes.SetMinLen(2))) == Ok(NewBytes.SetMinLen(2))
  {
    BytesLoseMinLen(NewBytes.SetMinLen(2));
    BytesRoundTrip(NewBytes.SetMinLen(2));
  }

  // ---------------------------------------------------------------------
  // Encoding nodes

  /**
   * Go `SchemaNode.MarshalJSON`: "$type" is the type's id, "$body" the
   * type's own JSON unless that is the empty object, "$metadata" the node's
   * metadata when it has any. A node without a type, or a type whose id
   * cannot be derived, cannot be encoded.
   */
  ghost function EncodeNode(n: Node): (r: Result<Data, Cause>)
    ensures n.typ.None? ==> r == Err(InvalidSchemaType)
    ensures r.Ok? ==> n.typ.Some? && SchemaTypeID(n.typ.value).Ok? && EncodeType(n.typ.value).Ok?
    ensures r.Ok? ==> r.value.Map? && "$type" in r.value.entries && r.value.entries["$type"] == Str(SchemaTypeID(n.typ.value).value)
    ensures r.Ok? ==> ("$body" in r.value.entries <==> EncodeType(n.typ.value).value != Map(map[]))
    ensures r.Ok? && "$body" in r.value.entries ==> r.value.entries["$body"] == EncodeType(n.typ.value).value
    ensures r.Ok? ==> ("$metadata" in r.value.entries <==> n.metadata.Some?)
    ensures r.Ok? && n.metadata.Some? ==> r.value.entries["$metadata"] == MetadataJSON(n.metadata.value)
    decreases n, 2
  {
    match n.typ
    case None => Err(InvalidSchemaType)
    case Some(t) =>
      var id := SchemaTypeID(t);
      if id.Err? then Err(id.error)
      else
        var body := EncodeType(t);
        if body.Err? then Err(body.error)
        else
          var withType := map["$type" := Str(id.value)];
          var withBody := if body.value == Map(map[]) then withType else withType["$body" := body.value];
          Ok(Map(if n.metadata.Some? then withBody["$metadata" := MetadataJSON(n.metadata.value)] else withBody))
  }

  /** The members of an object type's JSON: its properties, and its required keys unless there are none. */
  function ObjectBody(ps: map<string, Data>, required: seq<string>): (m: map<string, Data>)
    ensures "properties" in m && m["properties"] == Map(ps)
    ensures "required" in m <==> |required| > 0
    ensures "required" in m ==> m["required"] == Seq(StrList(required))
  {
    if |required| > 0 then map["properties" := Map(ps), "required" := Seq(StrList(required))]
    else map["properties" := Map(ps)]
  }

  /**
   * The JSON of a type: the struct tags of each built-in type (a nil child
   * is null, the object's "required" only when non-empty); a decorator is
   * its wrapped type's JSON (null without one); a node used as a type is
   * that node's encoding; a foreign type is the JSON it carries.
   */
  ghost function EncodeType(t: SchemaType): (r: Result<Data, Cause>)
    decreases t, 1
  {
    match t
    case AllOf(_, chain) =>
      var items := EncodeElements(t, 0);
      if items.Err? then Err(items.error)
      else Ok(Map(map["elements" := Seq(items.value), "chain" := FlagsJSON(chain)]))
    case AnyOf(_) =>
      var items := EncodeElements(t, 0);
      if items.Err? then Err(items.error) else Ok(Map(map["elements" := Seq(items.value)]))
    case OneOf(_) =>
      var items := EncodeElements(t, 0);
      if items.Err? then Err(items.error) else Ok(Map(map["elements" := Seq(items.value)]))
    case List(item, minLen, maxLen) =>
      var child := if item.None? then Ok(Null) else EncodeNode(item.value);
      if child.Err? then Err(child.error)
      else Ok(Map(PutNumber(PutNumber(map["type" := child.value], "minLen", minLen), "maxLen", maxLen)))
    case Object(properties, required) =>
      var ps := EncodeProperties(t, Text.SortedList(properties.Keys), 0);
      if ps.Err? then Err(ps.error)
      else Ok(Map(ObjectBody(ps.value, required)))
    case StringLeaf(s) => Ok(Map(StringJSON(s)))
    case IntLeaf(i) => Ok(Map(IntJSON(i)))
    case BoolLeaf(b) => Ok(Map(BoolJSON(b)))
    case BytesLeaf(b) => Ok(Map(BytesJSON(b)))
    case Decorated(original, _, _) => if original.Some? then EncodeType(original.value) else Ok(Null)
    case Wrapped(node) => EncodeNode(node)
    case Foreign(_, _, _, body) => Ok(body)
  }

  /** The encodings of the element nodes from `i` on; Go encodes a nil element as null. */
  ghost function EncodeElements(t: SchemaType, i: nat): (r: Result<seq<Data>, Cause>)
    requires t.AllOf? || t.AnyOf? || t.OneOf?
    requires i <= |t.elements|
    ensures r.Ok? ==> |r.value| == |t.elements| - i
    decreases t, 0, |t.elements| - i
  {
    if i == |t.elements| then Ok([])
    else
      var e := if t.elements[i].None? then Ok(Null) else EncodeNode(t.elements[i].value);
      if e.Err? then Err(e.error)
      else
        var rest := EncodeElements(t, i + 1);
        if rest.Err? then rest else Ok([e.value] + rest.value)
  }

  /** The encodings of the properties named by `keys[i..]` (Go encodes a map's members in key order). */
  ghost function EncodeProperties(t: SchemaType, keys: seq<string>, i: nat): (r: Result<map<string, Data>, Cause>)
    requires t.Object? && i <= |keys|
    requires forall k :: k in keys ==> k in t.properties
    ensures r.Ok? ==> forall k :: k in r.value <==> k in keys[i..]
    decreases t, 0, |keys| - i
  {
    if i == |keys| then Ok(map[])
    else
      var v := t.properties[keys[i]];
      var e := if v.None? then Ok(Null) else EncodeNode(v.value);
      if e.Err? then Err(e.error)
      else
        var rest := EncodeProperties(t, keys, i + 1);
        if rest.Err? then rest else Ok(rest.value[keys[i] := e.value])
  }

  // ---------------------------------------------------------------------
  // Decoding nodes

  /** A child node decoded in phase one only: no type yet, its JSON kept for phase two. */
  const PendingNode := Node(None, None)

  /**
   * Go `SchemaNode.unmarshalRawJSON`, phases one and two of one node. The
   * node must be an object whose "$type" is a string and whose "$metadata"
   * is an object of strings (both may be null or absent); then a missing
   * "$type", then an id the registry does not know, are errors; otherwise
   * the factory's value takes the body and the children are decoded.
   */
  ghost function DecodeNode(reg: Factories, j: Data): (r: Result<Node, DecodeError>)
    ensures r.Ok? ==> j.Map? && "$type" in j.entries && j.entries["$type"].Str? && j.entries["$type"].s in reg
    ensures r.Ok? ==> r.value.typ.Some?
    decreases j, 2
  {
    if !j.Map? then (if j.Null? then Err(NoTypeSet) else Err(WrongShape("$body")))
    else
      var m := j.entries;
      if "$type" in m && !(m["$type"].Null? || m["$type"].Str?) then Err(WrongShape("$type"))
      else if "$metadata" in m && !(m["$metadata"].Null? || IsMetadataJSON(m["$metadata"])) then Err(WrongShape("$metadata"))
      else if "$type" !in m || m["$type"].Null? then Err(NoTypeSet)
      else if m["$type"].s !in reg then Err(UnknownType(m["$type"].s))
      else
        var t := if "$body" in m then DecodeType(reg, reg[m["$type"].s], m["$body"], true)
                 else NoBody(reg[m["$type"].s], true);
        if t.Err? then Err(t.error)
        else
          var md := if "$metadata" in m && m["$metadata"].Map? then Some(MetadataOf(m["$metadata"])) else None;
          Ok(Node(Some(t.value), md))
  }

  /**
   * One child's JSON: null is a nil child, which phase two dereferences
   * (Go panics; reported as `NilChild`); any other JSON is kept as it is in
   * phase one (left pending) and decoded as a node in phase two, where
   * anything but an object fails.
   */
  ghost function DecodeChild(reg: Factories, v: Data, deep: bool): (r: Result<Option<Node>, DecodeError>)
    ensures v.Null? ==> r == (if deep then Err(NilChild) else Ok(None))
    ensures !deep && !v.Null? ==> r == Ok(Some(PendingNode))
    decreases v, 3
  {
    if v.Null? then (if deep then Err(NilChild) else Ok(None))
    else if !deep then Ok(Some(PendingNode))
    else
      var n := DecodeNode(reg, v);
      if n.Err? then Err(n.error) else Ok(Some(n.value))
  }

  /**
   * Phase two for children the factory's value already had: a nil one is
   * dereferenced (`NilChild`); any other has no JSON to decode.
   */
  function KeptChildren(cs: seq<Option<Node>>): (r: Option<DecodeError>)
    ensures r.None? <==> cs == []
  {
    if cs == [] then None
    else if cs[0].None? then Some(NilChild)
    else Some(EmptyFragment)
  }

  function KeptChild(c: Option<Node>, deep: bool): (r: Result<Option<Node>, DecodeError>)
    ensures !deep ==> r == Ok(c)
  {
    if !deep then Ok(c) else Err(KeptChildren([c]).value)
  }

  /**
   * What an "elements" member may hold: null, or a list. Each item is a
   * child node whose JSON is only kept in phase one, so its shape is
   * checked when phase two decodes it.
   */
  predicate ElementsShape(v: Data)
  {
    v.Null? || v.Seq?
  }

  /** What a "properties" member may hold: null, or an object whose members are child nodes kept for phase two. */
  predicate PropertiesShape(v: Data)
  {
    v.Null? || v.Map?
  }

  /** What a "required" member may hold: null, or a list of strings. */
  predicate RequiredShape(v: Data)
  {
    v.Null? || (v.Seq? && forall i :: 0 <= i < |v.items| ==> v.items[i].Str?)
  }

  /**
   * Decoding `body` into the factory's value `t`. Null leaves `t` as it is
   * (phase two then visits the children `t` already had); a decorator
   * decodes into the type it wraps but is no parent, so that type's
   * children stay pending; a node used as a type only keeps the JSON; a
   * foreign type takes the JSON as it is. A built-in type needs an object:
   * first every member is checked (phase one), then the children are
   * decoded in order, the first failure winning (phase two).
   */
  /**
   * A null or absent body: the factory's value stays as it is; phase two
   * then visits the children a built-in parent type already had.
   */
  ghost function NoBody(t: SchemaType, deep: bool): (r: Result<SchemaType, DecodeError>)
    ensures r.Ok? ==> r.value == t
    ensures !deep ==> r == Ok(t)
  {
    if t.Decorated? || t.Wrapped? || t.Foreign? then Ok(t)
    else
      var c := Children(Node(Some(t), None)).value;
      if deep && KeptChildren(c).Some? then Err(KeptChildren(c).value) else Ok(t)
  }

  ghost function DecodeType(reg: Factories, t: SchemaType, body: Data, deep: bool): (r: Result<SchemaType, DecodeError>)
    ensures r.Ok? ==> r.value.AllOf? == t.AllOf? && r.value.AnyOf? == t.AnyOf? && r.value.OneOf? == t.OneOf? &&
                      r.value.List? == t.List? && r.value.Object? == t.Object? && r.value.Decorated? == t.Decorated?
    decreases body, 1, t
  {
    match t
    case Decorated(original, handlers, defaultHandler) =>
      if body.Null? then NoBody(t, deep)
      else if original.None? then Err(NoOriginalType)
      else
        var o := DecodeType(reg, original.value, body, false);
        if o.Err? then Err(o.error) else Ok(Decorated(Some(o.value), handlers, defaultHandler))
    case Wrapped(_) => Ok(t)
    case Foreign(name, id, process, _) => if body.Null? then NoBody(t, deep) else Ok(Foreign(name, id, process, body))
    case _ =>
      if body.Null? then NoBody(t, deep)
      else if !body.Map? then Err(WrongShape("$body"))
      else DecodeMembers(reg, t, body, deep)
  }

  /** The members of a built-in type's object. */
  ghost function DecodeMembers(reg: Factories, t: SchemaType, body: Data, deep: bool): (r: Result<SchemaType, DecodeError>)
    requires body.Map? && !(t.Decorated? || t.Wrapped? || t.Foreign?)
    ensures r.Ok? ==> r.value.AllOf? == t.AllOf? && r.value.AnyOf? == t.AnyOf? && r.value.OneOf? == t.OneOf? &&
                      r.value.List? == t.List? && r.value.Object? == t.Object? && !r.value.Decorated?
    decreases body, 0, 4
  {
    match t
    case AllOf(_, _) => DecodeElementList(reg, t, body, deep)
    case AnyOf(_) => DecodeElementList(reg, t, body, deep)
    case OneOf(_) => DecodeElementList(reg, t, body, deep)
    case List(_, _, _) => DecodeList(reg, t, body, deep)
    case Object(_, _) => DecodeObject(reg, t, body, deep)
    case StringLeaf(s) =>
      var s' := StringFromJSON(s, body.entries);
      if s'.Err? then Err(s'.error) else Ok(StringLeaf(s'.value))
    case IntLeaf(i) =>
      var i' := IntFromJSON(i, body.entries);
      if i'.Err? then Err(i'.error) else Ok(IntLeaf(i'.value))
    case BoolLeaf(b) =>
      var b' := BoolFromJSON(b, body.entries);
      if b'.Err? then Err(b'.error) else Ok(BoolLeaf(b'.value))
    case BytesLeaf(b) =>
      var b' := BytesFromJSON(b, body.entries);
      if b'.Err? then Err(b'.error) else Ok(BytesLeaf(b'.value))
  }

  /** allOf ("elements", "chain"), anyOf and oneOf ("elements"). */
  ghost function DecodeElementList(reg: Factories, t: SchemaType, body: Data, deep: bool): (r: Result<SchemaType, DecodeError>)
    requires body.Map? && (t.AllOf? || t.AnyOf? || t.OneOf?)
    ensures r.Ok? ==> r.value.AllOf? == t.AllOf? && r.value.AnyOf? == t.AnyOf? && r.value.OneOf? == t.OneOf?
    decreases body, 0, 3
  {
    var m := body.entries;
    if "elements" in m && !ElementsShape(m["elements"]) then Err(WrongShape("elements"))
    else
      var chain := if t.AllOf? then FlagsValueField(m, "chain", t.chain) else Ok(NoFlags);
      if chain.Err? then Err(chain.error)
      else
        var es := DecodeElementsMember(reg, t.elements, body, deep);
        if es.Err? then Err(es.error)
        else if t.AllOf? then Ok(AllOf(es.value, chain.value))
        else if t.AnyOf? then Ok(AnyOf(es.value))
        else Ok(OneOf(es.value))
  }

  /** list: "type", "minLen", "maxLen". */
  ghost function DecodeList(reg: Factories, t: SchemaType, body: Data, deep: bool): (r: Result<SchemaType, DecodeError>)
    requires body.Map? && t.List?
    ensures r.Ok? ==> r.value.List?
    decreases body, 0, 3
  {
    var m := body.entries;
    var lo := NumberField(m, "minLen", t.minLen);
    var hi := NumberField(m, "maxLen", t.maxLen);
    if lo.Err? then Err(lo.error)
    else if hi.Err? then Err(hi.error)
    else
      var item := if "type" in m then DecodeChild(reg, m["type"], deep) else KeptChild(t.item, deep);
      if item.Err? then Err(item.error) else Ok(List(item.value, lo.value, hi.value))
  }

  /**
   * object: "properties" are merged into the factory's map (null empties
   * it), "required" replaces the required keys (null empties them).
   */
  ghost function DecodeObject(reg: Factories, t: SchemaType, body: Data, deep: bool): (r: Result<SchemaType, DecodeError>)
    requires body.Map? && t.Object?
    ensures r.Ok? ==> r.value.Object?
    decreases body, 0, 3
  {
    var m := body.entries;
    if "properties" in m && !PropertiesShape(m["properties"]) then Err(WrongShape("properties"))
    else if "required" in m && !RequiredShape(m["required"]) then Err(WrongShape("required"))
    else
      var required := if "required" in m && m["required"].Seq? then StringsOf(m["required"].items)
                      else if "required" in m then [] else t.required;
      var ps :=
        if "properties" !in m then
          var c := Children(Node(Some(t), None)).value;
          if deep && KeptChildren(c).Some? then Err(KeptChildren(c).value) else Ok(t.properties)
        else if m["properties"].Null? then Ok(map[])
        else DecodeProperties(reg, t.properties, body, Text.SortedList(t.properties.Keys + m["properties"].entries.Keys), 0, deep);
      if ps.Err? then Err(ps.error) else Ok(Object(ps.value, required))
  }

  /** The "elements" member: absent keeps the factory's elements, null empties the list. */
  ghost function DecodeElementsMember(reg: Factories, elements: seq<Option<Node>>, body: Data, deep: bool): (r: Result<seq<Option<Node>>, DecodeError>)
    requires body.Map? && ("elements" in body.entries ==> ElementsShape(body.entries["elements"]))
    decreases body, 0, 2
  {
    var m := body.entries;
    if "elements" !in m then (if deep && KeptChildren(elements).Some? then Err(KeptChildren(elements).value) else Ok(elements))
    else if m["elements"].Null? then Ok([])
    else DecodeElements(reg, body, 0, deep)
  }

  /** The element nodes from `i` on, in order, stopping at the first failure. */
  ghost function DecodeElements(reg: Factories, body: Data, i: nat, deep: bool): (r: Result<seq<Option<Node>>, DecodeError>)
    requires body.Map? && "elements" in body.entries && body.entries["elements"].Seq?
    requires i <= |body.entries["elements"].items|
    ensures r.Ok? ==> |r.value| == |body.entries["elements"].items| - i
    decreases body, 0, 1, |body.entries["elements"].items| - i
  {
    var items := body.entries["elements"].items;
    if i == |items| then Ok([])
    else
      var c := DecodeChild(reg, items[i], deep);
      if c.Err? then Err(c.error)
      else
        var rest := DecodeElements(reg, body, i + 1, deep);
        if rest.Err? then rest else Ok([c.value] + rest.value)
  }

  /**
   * The properties named by `keys[i..]`: those in the JSON are decoded,
   * the others are the ones the factory's map already had; the first
   * failure wins. (Go visits a map in an arbitrary order; here the order
   * is the keys' sorted order.)
   */
  ghost function DecodeProperties(reg: Factories, existing: map<string, Option<Node>>, body: Data, keys: seq<string>, i: nat, deep: bool): (r: Result<map<string, Option<Node>>, DecodeError>)
    requires body.Map? && "properties" in body.entries && body.entries["properties"].Map?
    requires forall k :: k in keys ==> k in existing || k in body.entries["properties"].entries
    requires i <= |keys|
    ensures r.Ok? ==> forall k :: k in r.value <==> k in keys[i..]
    decreases body, 0, 1, |keys| - i
  {
    if i == |keys| then Ok(map[])
    else
      var json := body.entries["properties"].entries;
      var c := if keys[i] in json then DecodeChild(reg, json[keys[i]], deep) else KeptChild(existing[keys[i]], deep);
      if c.Err? then Err(c.error)
      else
        var rest := DecodeProperties(reg, existing, body, keys, i + 1, deep);
        if rest.Err? then rest else Ok(rest.value[keys[i] := c.value])
  }

  /**
   * A child's JSON is checked only when phase two decodes it: under a
   * decorator, whose type's children get no phase two, an element `5` is
   * kept pending; registered as the plain allOf factory, the same document
   * fails on that element.
   */
  lemma ChildShapeInPhaseTwo()
    ensures var j := Map(map["$type" := Str("allOf"), "$body" := Map(map["elements" := Seq([Int(GoInt, 5)])])]);
            var decorated := Decorated(Some(AllOf([None], NoFlags)), map[], None);
            DecodeNode(map["allOf" := decorated], j) == Ok(Node(Some(Decorated(Some(AllOf([Some(PendingNode)], NoFlags)), map[], None)), None)) &&
            DecodeNode(map["allOf" := AllOf([None], NoFlags)], j) == Err(WrongShape("$body"))
  {
    var body := Map(map["elements" := Seq([Int(GoInt, 5)])]);
    assert DecodeElements(map["allOf" := AllOf([None], NoFlags)], body, 1, true) == Ok([]);
    var reg := map["allOf" := Decorated(Some(AllOf([None], NoFlags)), map[], None)];
    assert body.entries["elements"].items == [Int(GoInt, 5)];
    assert DecodeChild(reg, Int(GoInt, 5), false) == Ok(Some(PendingNode));
    assert DecodeElements(reg, body, 1, false) == Ok([]);
    assert 0 < |body.entries["elements"].items|;
    assert DecodeElements(reg, body, 0, false) == Ok([Some(PendingNode)] + []);
    assert [Some(PendingNode)] + [] == [Some(PendingNode)];
    assert "elements" in body.entries && !body.entries["elements"].Null?;
    assert DecodeElementsMember(reg, [None], body, false) == Ok([Some(PendingNode)]);
    assert DecodeElementList(reg, AllOf([None], NoFlags), body, false) == Ok(AllOf([Some(PendingNode)], NoFlags));
    assert DecodeType(reg, AllOf([None], NoFlags), body, false) == Ok(AllOf([Some(PendingNode)], NoFlags));
  }

  // ---------------------------------------------------------------------
  // Round trip

  /** The values the default registry's factories return for the built-in types. */
  const BuiltinFactories: Factories := map[
    "anyOf" := AnyOf([None]),
    "oneOf" := OneOf([None]),
    "allOf" := AllOf([None], NoFlags),
    "list" := List(None, None, None),
    "object" := Object(map[], []),
    "string" := StringLeaf(NewString),
    "int" := IntLeaf(NewInt),
    "bytes" := BytesLeaf(NewBytes),
    "bool" := BoolLeaf(NewBool)
  ]

  /** The registry resolves the id of `t` to the built-in factory of that id. */
  ghost predicate Registered(reg: Factories, t: SchemaType)
  {
    SchemaTypeID(t).Ok? && SchemaTypeID(t).value in BuiltinFactories &&
    SchemaTypeID(t).value in reg && reg[SchemaTypeID(t).value] == BuiltinFactories[SchemaTypeID(t).value]
  }

  /**
   * A tree the encoding describes completely and `reg` decodes: built-in
   * types only, each registered under its id, no nil child, and every flag
   * in the form its JSON restores.
   */
  ghost predicate Encodable(reg: Factories, n: Node)
    decreases n, 1
  {
    n.typ.Some? && EncodableType(reg, n.typ.value)
  }

  ghost predicate EncodableType(reg: Factories, t: SchemaType)
    decreases t, 0
  {
    Registered(reg, t) &&
    match t
    case AllOf(elements, chain) =>
      NormalFlags(chain) && forall i :: 0 <= i < |elements| ==> elements[i].Some? && Encodable(reg, elements[i].value)
    case AnyOf(elements) => forall i :: 0 <= i < |elements| ==> elements[i].Some? && Encodable(reg, elements[i].value)
    case OneOf(elements) => forall i :: 0 <= i < |elements| ==> elements[i].Some? && Encodable(reg, elements[i].value)
    case List(item, _, _) => item.Some? && Encodable(reg, item.value)
    case Object(properties, _) => forall k :: k in properties ==> properties[k].Some? && Encodable(reg, properties[k].value)
    case StringLeaf(s) => NormalCast(s.cast)
    case IntLeaf(i) => NormalCast(i.cast)
    case BoolLeaf(b) => NormalCast(b.cast)
    case BytesLeaf(b) => NormalFlags(b.cast)
    case _ => false
  }

  /** The node encodes, and its encoding decodes back to it. */
  ghost predicate RoundTrips(reg: Factories, n: Node)
  {
    EncodeNode(n).Ok? && DecodeNode(reg, EncodeNode(n).value) == Ok(n)
  }

  /** Every element of allOf, anyOf or oneOf is a node that round-trips. */
  ghost predicate ElementsRoundTrip(reg: Factories, t: SchemaType)
    requires t.AllOf? || t.AnyOf? || t.OneOf?
  {
    forall k :: 0 <= k < |t.elements| ==> t.elements[k].Some? && RoundTrips(reg, t.elements[k].value)
  }

  /** Every property of an object type is a node that round-trips. */
  ghost predicate PropertiesRoundTrip(reg: Factories, t: SchemaType)
    requires t.Object?
  {
    forall k :: k in t.properties ==> t.properties[k].Some? && RoundTrips(reg, t.properties[k].value)
  }

  /**
   * Decoding the encoding of a node gives the node back, with a registry
   * that resolves every id in the tree to its built-in factory.
   */
  lemma {:induction false} NodeRoundTrip(reg: Factories, n: Node)
    requires Encodable(reg, n)
    ensures EncodeNode(n).Ok? && DecodeNode(reg, EncodeNode(n).value) == Ok(n)
    decreases n, 2
  {
    var t := n.typ.value;
    TypeRoundTrip(reg, t);
    if n.metadata.Some? {
      MetadataRoundTrip(n.metadata.value);
    }
  }

  /** Each built-in type decodes from its JSON into the factory's value; an empty body needs no decoding. */
  lemma {:induction false} TypeRoundTrip(reg: Factories, t: SchemaType)
    requires EncodableType(reg, t)
    ensures SchemaTypeID(t).Ok? && SchemaTypeID(t).value in BuiltinFactories
    ensures EncodeType(t).Ok? && EncodeType(t).value.Map?
    ensures EncodeType(t).value != Map(map[]) ==>
              DecodeType(reg, BuiltinFactories[SchemaTypeID(t).value], EncodeType(t).value, true) == Ok(t)
    ensures EncodeType(t).value == Map(map[]) ==> NoBody(BuiltinFactories[SchemaTypeID(t).value], true) == Ok(t)
    decreases t, 1
  {
    match t
    case AllOf(_, _) => ElementsInduction(reg, t); ElementListRoundTrip(reg, t);
    case AnyOf(_) => ElementsInduction(reg, t); ElementListRoundTrip(reg, t);
    case OneOf(_) => ElementsInduction(reg, t); ElementListRoundTrip(reg, t);
    case List(item, _, _) => NodeRoundTrip(reg, item.value); ListRoundTrip(reg, t);
    case Object(_, _) => PropertiesInduction(reg, t); ObjectRoundTrip(reg, t);
    case StringLeaf(_) => LeafRoundTrip(reg, t);
    case IntLeaf(_) => LeafRoundTrip(reg, t);
    case BoolLeaf(_) => LeafRoundTrip(reg, t);
    case BytesLeaf(_) => LeafRoundTrip(reg, t);
  }

  /** The induction hypothesis for the elements of allOf, anyOf and oneOf. */
  lemma {:induction false} ElementsInduction(reg: Factories, t: SchemaType)
    requires EncodableType(reg, t) && (t.AllOf? || t.AnyOf? || t.OneOf?)
    ensures ElementsRoundTrip(reg, t)
    decreases t, 0
  {
    forall k | 0 <= k < |t.elements| ensures t.elements[k].Some? && RoundTrips(reg, t.elements[k].value) {
      NodeRoundTrip(reg, t.elements[k].value);
    }
  }

  /** The induction hypothesis for the properties of an object type. */
  lemma {:induction false} PropertiesInduction(reg: Factories, t: SchemaType)
    requires EncodableType(reg, t) && t.Object?
    ensures PropertiesRoundTrip(reg, t)
    decreases t, 0
  {
    forall k | k in t.properties ensures t.properties[k].Some? && RoundTrips(reg, t.properties[k].value) {
      NodeRoundTrip(reg, t.properties[k].value);
    }
  }

  /** The string, int, bool and bytes types decode from their JSON; an empty body is the factory's value. */
  lemma LeafRoundTrip(reg: Factories, t: SchemaType)
    requires EncodableType(reg, t) && (t.StringLeaf? || t.IntLeaf? || t.BoolLeaf? || t.BytesLeaf?)
    ensures LeafBack(reg, t)
  {
    match t
    case StringLeaf(s) => StringLeafBack(reg, s);
    case IntLeaf(i) => IntLeafBack(reg, i);
    case BoolLeaf(b) => BoolLeafBack(reg, b);
    case BytesLeaf(b) => BytesLeafBack(reg, b);
  }

  /** A leaf type's id is built in and its JSON decodes back to it through that factory. */
  ghost predicate LeafBack(reg: Factories, t: SchemaType)
  {
    SchemaTypeID(t).Ok? && SchemaTypeID(t).value in BuiltinFactories &&
    EncodeType(t).Ok? && EncodeType(t).value.Map? &&
    (EncodeType(t).value != Map(map[]) ==>
       DecodeType(reg, BuiltinFactories[SchemaTypeID(t).value], EncodeType(t).value, true) == Ok(t)) &&
    (EncodeType(t).value == Map(map[]) ==> NoBody(BuiltinFactories[SchemaTypeID(t).value], true) == Ok(t))
  }

  lemma StringLeafBack(reg: Factories, s: StringType)
    requires EncodableType(reg, StringLeaf(s))
    ensures LeafBack(reg, StringLeaf(s))
  {
    StringRoundTrip(s);
    var body := EncodeType(StringLeaf(s)).value;
    if body != Map(map[]) {
      var f := BuiltinFactories["string"];
      assert DecodeType(reg, f, body, true) == DecodeMembers(reg, f, body, true);
    }
  }

  lemma IntLeafBack(reg: Factories, i: IntType)
    requires EncodableType(reg, IntLeaf(i))
    ensures LeafBack(reg, IntLeaf(i))
  {
    IntRoundTrip(i);
    var body := EncodeType(IntLeaf(i)).value;
    if body != Map(map[]) {
      var f := BuiltinFactories["int"];
      assert DecodeType(reg, f, body, true) == DecodeMembers(reg, f, body, true);
    }
  }

  lemma BoolLeafBack(reg: Factories, b: BoolType)
    requires EncodableType(reg, BoolLeaf(b))
    ensures LeafBack(reg, BoolLeaf(b))
  {
    BoolRoundTrip(b);
    var body := EncodeType(BoolLeaf(b)).value;
    if body != Map(map[]) {
      var f := BuiltinFactories["bool"];
      assert DecodeType(reg, f, body, true) == DecodeMembers(reg, f, body, true);
    }
  }

  lemma BytesLeafBack(reg: Factories, b: BytesType)
    requires EncodableType(reg, BytesLeaf(b))
    ensures LeafBack(reg, BytesLeaf(b))
  {
    BytesRoundTrip(b);
    var body := EncodeType(BytesLeaf(b)).value;
    if body != Map(map[]) {
      var f := BuiltinFactories["bytes"];
      assert DecodeType(reg, f, body, true) == DecodeMembers(reg, f, body, true);
    }
  }

  /** allOf, anyOf and oneOf decode from their JSON once their elements do. */
  lemma ElementListRoundTrip(reg: Factories, t: SchemaType)
    requires Registered(reg, t) && (t.AllOf? || t.AnyOf? || t.OneOf?) && ElementsRoundTrip(reg, t)
    requires t.AllOf? ==> NormalFlags(t.chain)
    ensures SchemaTypeID(t).Ok? && SchemaTypeID(t).value in BuiltinFactories
    ensures EncodeType(t).Ok? && EncodeType(t).value.Map? && EncodeType(t).value != Map(map[])
    ensures DecodeType(reg, BuiltinFactories[SchemaTypeID(t).value], EncodeType(t).value, true) == Ok(t)
  {
    ElementsEncoded(reg, t);
    var body := EncodeType(t).value;
    DecodeElementsBack(reg, t.elements, body, 0);
    assert t.elements[0..] == t.elements;
    if t.AllOf? {
      FlagsBack(t.chain);
    }
    ElementListBack(reg, t, body);
  }

  /** The JSON of allOf, anyOf and oneOf: a list of element nodes, each decoding back to its element. */
  lemma ElementsEncoded(reg: Factories, t: SchemaType)
    requires (t.AllOf? || t.AnyOf? || t.OneOf?) && ElementsRoundTrip(reg, t)
    ensures EncodeType(t).Ok? && EncodeType(t).value.Map?
    ensures var m := EncodeType(t).value.entries;
            "elements" in m && m["elements"].Seq? && ElementsShape(m["elements"]) &&
            |m["elements"].items| == |t.elements| &&
            (t.AllOf? ==> "chain" in m && m["chain"] == FlagsJSON(t.chain)) &&
            forall k :: 0 <= k < |t.elements| ==>
              t.elements[k].Some? && m["elements"].items[k].Map? &&
              DecodeNode(reg, m["elements"].items[k]) == Ok(t.elements[k].value)
  {
    EncodeElementsBack(t, 0);
    var items := EncodeElements(t, 0).value;
    ElementsJSON(t);
    forall k | 0 <= k < |items| ensures t.elements[k].Some? && items[k].Map? && DecodeNode(reg, items[k]) == Ok(t.elements[k].value) {
      assert items[k - 0] == EncodeNode(t.elements[k].value).value;
      assert RoundTrips(reg, t.elements[k].value);
    }
  }

  /** The JSON of a combinator whose elements encode: the element list, and the chain flags for allOf. */
  lemma ElementsJSON(t: SchemaType)
    requires (t.AllOf? || t.AnyOf? || t.OneOf?) && EncodeElements(t, 0).Ok?
    ensures EncodeType(t).Ok? && EncodeType(t).value.Map?
    ensures var m := EncodeType(t).value.entries;
            "elements" in m && m["elements"] == Seq(EncodeElements(t, 0).value) &&
            (t.AllOf? ==> "chain" in m && m["chain"] == FlagsJSON(t.chain))
  {
  }

  /** The elements from `i` on encode, in order, each to the encoding of its node. */
  lemma {:induction false} EncodeElementsBack(t: SchemaType, i: nat)
    requires (t.AllOf? || t.AnyOf? || t.OneOf?) && i <= |t.elements|
    requires forall k :: i <= k < |t.elements| ==> t.elements[k].Some? && EncodeNode(t.elements[k].value).Ok?
    ensures EncodeElements(t, i).Ok?
    ensures forall k :: i <= k < |t.elements| ==> EncodeElements(t, i).value[k - i] == EncodeNode(t.elements[k].value).value
    decreases |t.elements| - i
  {
    if i < |t.elements| {
      EncodeElementsBack(t, i + 1);
      EncodeElementsStep(t, i);
      var out, rest := EncodeElements(t, i).value, EncodeElements(t, i + 1).value;
      forall k | i < k < |t.elements| ensures out[k - i] == EncodeNode(t.elements[k].value).value {
        assert out[k - i] == out[1..][k - (i + 1)] == rest[k - (i + 1)];
      }
    }
  }

  /** An element that encodes followed by elements that encode: the head is its encoding, the tail theirs. */
  lemma EncodeElementsStep(t: SchemaType, i: nat)
    requires (t.AllOf? || t.AnyOf? || t.OneOf?) && i < |t.elements|
    requires t.elements[i].Some? && EncodeNode(t.elements[i].value).Ok?
    requires EncodeElements(t, i + 1).Ok?
    ensures EncodeElements(t, i).Ok?
    ensures EncodeElements(t, i).value[0] == EncodeNode(t.elements[i].value).value
    ensures EncodeElements(t, i).value[1..] == EncodeElements(t, i + 1).value
  {
  }

  /** Element JSON that decodes node by node decodes as a whole, in order. */
  lemma {:induction false} DecodeElementsBack(reg: Factories, es: seq<Option<Node>>, body: Data, i: nat)
    requires i <= |es|
    requires body.Map? && "elements" in body.entries && body.entries["elements"].Seq?
    requires |body.entries["elements"].items| == |es|
    requires forall k :: i <= k < |es| ==>
               es[k].Some? && body.entries["elements"].items[k].Map? &&
               DecodeNode(reg, body.entries["elements"].items[k]) == Ok(es[k].value)
    ensures DecodeElements(reg, body, i, true) == Ok(es[i..])
    decreases |es| - i
  {
    if i < |es| {
      var items := body.entries["elements"].items;
      var n := es[i].value;
      assert DecodeChild(reg, items[i], true) == Ok(Some(n));
      DecodeElementsBack(reg, es, body, i + 1);
      DecodeElementsStep(reg, body, i, n);
      assert es[i..] == [Some(n)] + es[i + 1..];
    } else {
      assert es[i..] == [];
    }
  }

  /** One element that decodes to `n` followed by elements that decode. */
  lemma DecodeElementsStep(reg: Factories, body: Data, i: nat, n: Node)
    requires body.Map? && "elements" in body.entries && body.entries["elements"].Seq?
    requires i < |body.entries["elements"].items|
    requires DecodeChild(reg, body.entries["elements"].items[i], true) == Ok(Some(n))
    requires DecodeElements(reg, body, i + 1, true).Ok?
    ensures DecodeElements(reg, body, i, true) == Ok([Some(n)] + DecodeElements(reg, body, i + 1, true).value)
  {
  }

  /** The last step of `ElementListRoundTrip`: well-shaped members that decode give the type back. */
  lemma ElementListBack(reg: Factories, t: SchemaType, body: Data)
    requires (t.AllOf? || t.AnyOf? || t.OneOf?) && body.Map?
    requires "elements" in body.entries && body.entries["elements"].Seq? && ElementsShape(body.entries["elements"])
    requires DecodeElements(reg, body, 0, true) == Ok(t.elements)
    requires t.AllOf? ==> FlagsValueField(body.entries, "chain", NoFlags) == Ok(t.chain)
    ensures SchemaTypeID(t).Ok? && SchemaTypeID(t).value in BuiltinFactories
    ensures DecodeType(reg, BuiltinFactories[SchemaTypeID(t).value], body, true) == Ok(t)
  {
    var f := BuiltinFactories[SchemaTypeID(t).value];
    assert DecodeElementsMember(reg, f.elements, body, true) == Ok(t.elements);
    assert DecodeType(reg, f, body, true) == DecodeMembers(reg, f, body, true) == DecodeElementList(reg, f, body, true);
  }

  /** A list type decodes from its JSON once its item does. */
  lemma ListRoundTrip(reg: Factories, t: SchemaType)
    requires Registered(reg, t) && t.List? && t.item.Some? && RoundTrips(reg, t.item.value)
    ensures EncodeType(t).Ok? && EncodeType(t).value.Map? && EncodeType(t).value != Map(map[])
    ensures DecodeType(reg, BuiltinFactories["list"], EncodeType(t).value, true) == Ok(t)
  {
    var body := EncodeType(t).value;
    var m0 := map["type" := EncodeNode(t.item.value).value];
    var m1 := PutNumber(m0, "minLen", t.minLen);
    assert body.entries == PutNumber(m1, "maxLen", t.maxLen);
    NumberMemberBack(m0, "minLen", t.minLen);
    NumberMemberBack(m1, "maxLen", t.maxLen);
    assert NumberField(body.entries, "minLen", None) == NumberField(m1, "minLen", None);
    ListBack(reg, t, body);
  }

  /** The last step of `ListRoundTrip`: members that decode give the list type back. */
  lemma ListBack(reg: Factories, t: SchemaType, body: Data)
    requires t.List? && t.item.Some? && body.Map?
    requires "type" in body.entries && body.entries["type"].Map?
    requires DecodeNode(reg, body.entries["type"]) == Ok(t.item.value)
    requires NumberField(body.entries, "minLen", None) == Ok(t.minLen)
    requires NumberField(body.entries, "maxLen", None) == Ok(t.maxLen)
    ensures DecodeType(reg, BuiltinFactories["list"], body, true) == Ok(t)
  {
    var f := BuiltinFactories["list"];
    assert DecodeChild(reg, body.entries["type"], true) == Ok(t.item);
    assert DecodeType(reg, f, body, true) == DecodeMembers(reg, f, body, true) == DecodeList(reg, f, body, true);
  }

  /** An object type decodes from its JSON once its properties do. */
  lemma ObjectRoundTrip(reg: Factories, t: SchemaType)
    requires Registered(reg, t) && t.Object? && PropertiesRoundTrip(reg, t)
    ensures EncodeType(t).Ok? && EncodeType(t).value.Map? && EncodeType(t).value != Map(map[])
    ensures DecodeType(reg, BuiltinFactories["object"], EncodeType(t).value, true) == Ok(t)
  {
    ObjectEncoded(reg, t);
    var body := EncodeType(t).value;
    PropertiesBack(reg, t, body);
    ObjectBack(reg, t, body);
  }

  /** The JSON of an object type: its properties' nodes, each decoding back, and its required keys. */
  lemma ObjectEncoded(reg: Factories, t: SchemaType)
    requires t.Object? && PropertiesRoundTrip(reg, t)
    ensures EncodeType(t).Ok? && EncodeType(t).value.Map?
    ensures var m := EncodeType(t).value.entries;
            "properties" in m && m["properties"].Map? && PropertiesShape(m["properties"]) &&
            m["properties"].entries.Keys == t.properties.Keys &&
            ("required" in m <==> |t.required| > 0) &&
            ("required" in m ==> m["required"] == Seq(StrList(t.required))) &&
            forall k :: k in t.properties ==>
              t.properties[k].Some? && m["properties"].entries[k].Map? &&
              DecodeNode(reg, m["properties"].entries[k]) == Ok(t.properties[k].value)
  {
    PropertiesEncoded(reg, t);
    var ps := EncodeProperties(t, Text.SortedList(t.properties.Keys), 0).value;
    assert EncodeType(t) == Ok(Map(ObjectBody(ps, t.required)));
  }

  /** The properties of an object type encode to a JSON object of nodes, each decoding back. */
  lemma PropertiesEncoded(reg: Factories, t: SchemaType)
    requires t.Object? && PropertiesRoundTrip(reg, t)
    ensures EncodeProperties(t, Text.SortedList(t.properties.Keys), 0).Ok?
    ensures var ps := EncodeProperties(t, Text.SortedList(t.properties.Keys), 0).value;
            ps.Keys == t.properties.Keys && PropertiesShape(Map(ps)) &&
            forall k :: k in ps ==>
              t.properties[k].Some? && ps[k].Map? && DecodeNode(reg, ps[k]) == Ok(t.properties[k].value)
  {
    var keys := Text.SortedList(t.properties.Keys);
    EncodePropertiesBack(reg, t, keys, 0);
    var ps := EncodeProperties(t, keys, 0).value;
    assert keys[0..] == keys;
    assert ps.Keys == t.properties.Keys by {
      forall k ensures k in ps <==> k in t.properties {
        assert k in keys[0..] <==> k in keys;
      }
    }
    forall k | k in ps
      ensures ps[k].Map? && DecodeNode(reg, ps[k]) == Ok(t.properties[k].value)
    {
      assert k in keys[0..];
    }
  }

  /** The properties named by `keys[i..]` encode to nodes, each decoding back to its property. */
  lemma EncodePropertiesBack(reg: Factories, t: SchemaType, keys: seq<string>, i: nat)
    requires t.Object? && i <= |keys| && PropertiesRoundTrip(reg, t)
    requires forall k :: k in keys ==> k in t.properties
    ensures EncodeProperties(t, keys, i).Ok?
    ensures forall k :: k in keys[i..] ==>
              t.properties[k].Some? && EncodeProperties(t, keys, i).value[k].Map? &&
              DecodeNode(reg, EncodeProperties(t, keys, i).value[k]) == Ok(t.properties[k].value)
  {
    forall k | k in t.properties && t.properties[k].Some? ensures EncodeNode(t.properties[k].value).Ok? {
      assert RoundTrips(reg, t.properties[k].value);
    }
    PropertiesEncode(t, keys, i);
    forall k | k in keys[i..]
      ensures t.properties[k].Some? && EncodeProperties(t, keys, i).value[k].Map? &&
              DecodeNode(reg, EncodeProperties(t, keys, i).value[k]) == Ok(t.properties[k].value)
    {
      assert RoundTrips(reg, t.properties[k].value);
      EncodedProperty(t, keys, i, k);
    }
  }

  /** Each property listed in `keys[i..]` is encoded as its node (null for a nil one). */
  lemma {:induction false} EncodedProperty(t: SchemaType, keys: seq<string>, i: nat, k: string)
    requires t.Object? && i <= |keys| && forall k :: k in keys ==> k in t.properties
    requires EncodeProperties(t, keys, i).Ok? && k in keys[i..]
    ensures t.properties[k].None? ==> EncodeProperties(t, keys, i).value[k] == Null
    ensures t.properties[k].Some? ==>
              EncodeNode(t.properties[k].value).Ok? &&
              EncodeProperties(t, keys, i).value[k] == EncodeNode(t.properties[k].value).value
    decreases |keys| - i
  {
    if keys[i] != k {
      var j :| i <= j < |keys| && keys[j] == k;
      assert keys[i + 1..][j - i - 1] == k;
      EncodedProperty(t, keys, i + 1, k);
    }
  }

  /** Properties whose nodes all encode (nil ones as null) encode. */
  lemma {:induction false} PropertiesEncode(t: SchemaType, keys: seq<string>, i: nat)
    requires t.Object? && i <= |keys| && forall k :: k in keys ==> k in t.properties
    requires forall k :: k in t.properties && t.properties[k].Some? ==> EncodeNode(t.properties[k].value).Ok?
    ensures EncodeProperties(t, keys, i).Ok?
    decreases |keys| - i
  {
    if i < |keys| {
      PropertiesEncode(t, keys, i + 1);
    }
  }

  /** Property JSON whose nodes decode one by one decodes into the object type's properties. */
  lemma PropertiesBack(reg: Factories, t: SchemaType, body: Data)
    requires t.Object? && body.Map? && "properties" in body.entries && body.entries["properties"].Map?
    requires body.entries["properties"].entries.Keys == t.properties.Keys
    requires forall k :: k in t.properties ==>
               t.properties[k].Some? && body.entries["properties"].entries[k].Map? &&
               DecodeNode(reg, body.entries["properties"].entries[k]) == Ok(t.properties[k].value)
    ensures DecodeProperties(reg, map[], body, Text.SortedList(BuiltinFactories["object"].properties.Keys + body.entries["properties"].entries.Keys), 0, true)
              == Ok(t.properties)
  {
    var keys := Text.SortedList(t.properties.Keys);
    assert BuiltinFactories["object"].properties.Keys + body.entries["properties"].entries.Keys == t.properties.Keys;
    DecodePropertiesBack(reg, t.properties, body, keys, 0);
    assert keys[0..] == keys;
    MapOverKeys(t.properties, keys);
  }

  /** A map rebuilt over a list of exactly its keys is the map. */
  lemma MapOverKeys<V>(p: map<string, V>, keys: seq<string>)
    requires forall k :: k in keys <==> k in p
    ensures (map k | k in keys :: p[k]) == p
  {
  }

  /** The last step of `ObjectRoundTrip`: well-shaped members that decode give the object type back. */
  lemma ObjectBack(reg: Factories, t: SchemaType, body: Data)
    requires t.Object? && body.Map?
    requires "properties" in body.entries && body.entries["properties"].Map? && PropertiesShape(body.entries["properties"])
    requires DecodeProperties(reg, map[], body, Text.SortedList(BuiltinFactories["object"].properties.Keys + body.entries["properties"].entries.Keys), 0, true)
               == Ok(t.properties)
    requires "required" in body.entries <==> |t.required| > 0
    requires "required" in body.entries ==> body.entries["required"] == Seq(StrList(t.required))
    ensures DecodeType(reg, BuiltinFactories["object"], body, true) == Ok(t)
  {
    var f := BuiltinFactories["object"];
    if |t.required| > 0 {
      assert StringsOf(StrList(t.required)) == t.required;
    }
    assert DecodeType(reg, f, body, true) == DecodeMembers(reg, f, body, true) == DecodeObject(reg, f, body, true);
  }

  /** Property JSON that decodes node by node decodes as a whole. */
  lemma {:induction false} DecodePropertiesBack(reg: Factories, props: map<string, Option<Node>>, body: Data, keys: seq<string>, i: nat)
    requires i <= |keys|
    requires body.Map? && "properties" in body.entries && body.entries["properties"].Map?
    requires forall k :: k in keys ==> k in props && k in body.entries["properties"].entries
    requires forall k :: k in keys ==>
               props[k].Some? && body.entries["properties"].entries[k].Map? &&
               DecodeNode(reg, body.entries["properties"].entries[k]) == Ok(props[k].value)
    ensures DecodeProperties(reg, map[], body, keys, i, true) == Ok(map k | k in keys[i..] :: props[k])
    decreases |keys| - i
  {
    if i < |keys| {
      var n := props[keys[i]].value;
      assert DecodeChild(reg, body.entries["properties"].entries[keys[i]], true) == Ok(Some(n));
      DecodePropertiesBack(reg, props, body, keys, i + 1);
      DecodePropertiesStep(reg, body, keys, i, Some(n));
      SuffixMapStep(props, keys, i);
    }
  }

  /** One property that decodes to `c` followed by properties that decode. */
  lemma DecodePropertiesStep(reg: Factories, body: Data, keys: seq<string>, i: nat, c: Option<Node>)
    requires body.Map? && "properties" in body.entries && body.entries["properties"].Map?
    requires forall k :: k in keys ==> k in body.entries["properties"].entries
    requires i < |keys|
    requires DecodeChild(reg, body.entries["properties"].entries[keys[i]], true) == Ok(c)
    requires DecodeProperties(reg, map[], body, keys, i + 1, true).Ok?
    ensures DecodeProperties(reg, map[], body, keys, i, true)
            == Ok(DecodeProperties(reg, map[], body, keys, i + 1, true).value[keys[i] := c])
  {
  }

  /** A map over `keys[i..]` is the map over `keys[i + 1..]` with `keys[i]` added. */
  lemma SuffixMapStep<V>(m: map<string, V>, keys: seq<string>, i: nat)
    requires i < |keys| && forall k :: k in keys ==> k in m
    ensures (map k | k in keys[i + 1..] :: m[k])[keys[i] := m[keys[i]]] == map k | k in keys[i..] :: m[k]
  {
    forall k ensures k in keys[i..] <==> k == keys[i] || k in keys[i + 1..] {
      if k in keys[i..] {
        var j :| i <= j < |keys| && keys[j] == k;
        if j > i {
          assert keys[i + 1..][j - i - 1] == k;
        }
      }
      if k in keys[i + 1..] {
        var j :| 0 <= j < |keys[i + 1..]| && keys[i + 1..][j] == k;
        assert keys[i..][j + 1] == k;
      }
    }
  }
}
