// The schema envelope {"$version": "1.0", "$body": <node>, "$metadata": ...}
// (Go `MarshalPongoSchemaWithMetadata` / `UnmarshalPongoSchemaWithMapper`),
// and what decoding does with a type the registry does not know.
module Envelopes {
  import opened Wrappers
  import opened Values
  import opened SchemaErrors
  import opened Schemas
  import Codec
  import Text
  import Properties

  /** The only schema version there is. */
  const Version: string := "1.0"

  /** A decoded envelope: the schema's root node and the envelope's metadata. */
  datatype Envelope = Envelope(schema: Node, metadata: Option<map<string, string>>)

  /**
   * The envelope of a schema: the version, the root node (`Schema(t)`, so a
   * node passed as the type is not wrapped again) and the metadata when
   * there is any. It fails exactly when the root node cannot be encoded.
   */
  ghost function EncodeEnvelope(t: SchemaType, metadata: Option<map<string, string>>): (r: Result<Data, Cause>)
    ensures r.Err? <==> Codec.EncodeNode(Schema(t)).Err?
    ensures r.Ok? ==> r.value.Map? && "$version" in r.value.entries && r.value.entries["$version"] == Str(Version)
    ensures r.Ok? ==> "$body" in r.value.entries && r.value.entries["$body"].Map?
    ensures r.Ok? ==> ("$metadata" in r.value.entries <==> metadata.Some?)
  {
    var body := Codec.EncodeNode(Schema(t));
    if body.Err? then Err(body.error)
    else
      var d := map["$version" := Str(Version), "$body" := body.value];
      Ok(Map(if metadata.Some? then d["$metadata" := Codec.MetadataJSON(metadata.value)] else d))
  }

  /**
   * The checks made before any type is resolved, in their order: the
   * document is an object, it has a version, the version is "1.0", it has
   * a body, and its metadata (when present) is null or an object of
   * strings.
   */
  function HeaderError(j: Data): (r: Option<DecodeError>)
    ensures !j.Map? ==> r == Some(NotAnEnvelope)
    ensures j.Map? && "$version" !in j.entries ==> r == Some(MissingVersion)
    ensures j.Map? && "$version" in j.entries && j.entries["$version"] != Str(Version) ==> r == Some(WrongVersion)
    ensures j.Map? && "$version" in j.entries && j.entries["$version"] == Str(Version) && "$body" !in j.entries ==> r == Some(MissingBody)
    ensures r.None? <==> j.Map? && "$version" in j.entries && j.entries["$version"] == Str(Version) && "$body" in j.entries &&
                         ("$metadata" in j.entries ==> j.entries["$metadata"].Null? || Codec.IsMetadataJSON(j.entries["$metadata"]))
  {
    if !j.Map? then Some(NotAnEnvelope)
    else if "$version" !in j.entries then Some(MissingVersion)
    else if j.entries["$version"] != Str(Version) then Some(WrongVersion)
    else if "$body" !in j.entries then Some(MissingBody)
    else if "$metadata" in j.entries && !(j.entries["$metadata"].Null? || Codec.IsMetadataJSON(j.entries["$metadata"])) then Some(WrongShape("$metadata"))
    else None
  }

  /**
   * Decoding an envelope: the header checks, then the root node through
   * the registry. Present metadata is returned (null as the empty map);
   * absent metadata is none.
   */
  ghost function DecodeEnvelope(reg: Codec.Factories, j: Data): (r: Result<Envelope, DecodeError>)
    ensures HeaderError(j).Some? ==> r == Err(HeaderError(j).value)
    ensures HeaderError(j).None? ==> (r.Ok? <==> Codec.DecodeNode(reg, j.entries["$body"]).Ok?)
    ensures r.Ok? ==> r.value.schema == Codec.DecodeNode(reg, j.entries["$body"]).value && r.value.schema.typ.Some?
    ensures r.Ok? ==> (r.value.metadata.Some? <==> "$metadata" in j.entries)
  {
    var h := HeaderError(j);
    if h.Some? then Err(h.value)
    else
      var m := j.entries;
      var md := if "$metadata" !in m then None
                else if m["$metadata"].Null? then Some(map[])
                else Some(Codec.MetadataOf(m["$metadata"]));
      var n := Codec.DecodeNode(reg, m["$body"]);
      if n.Err? then Err(n.error) else Ok(Envelope(n.value, md))
  }

  /** A bad header fails the same way whatever the registry holds. */
  lemma HeaderBeforeRegistry(reg1: Codec.Factories, reg2: Codec.Factories, j: Data)
    requires HeaderError(j).Some?
    ensures DecodeEnvelope(reg1, j) == DecodeEnvelope(reg2, j) == Err(HeaderError(j).value)
  {
  }

  /**
   * Decoding the envelope of a schema gives the schema's root node and the
   * metadata back, with a registry that resolves every id in the tree to
   * its built-in factory.
   */
  lemma EnvelopeRoundTrip(reg: Codec.Factories, t: SchemaType, metadata: Option<map<string, string>>)
    requires Codec.Encodable(reg, Schema(t))
    ensures EncodeEnvelope(t, metadata).Ok?
    ensures DecodeEnvelope(reg, EncodeEnvelope(t, metadata).value) == Ok(Envelope(Schema(t), metadata))
  {
    Codec.NodeRoundTrip(reg, Schema(t));
    if metadata.Some? {
      Codec.MetadataRoundTrip(metadata.value);
    }
  }

  // ---------------------------------------------------------------------
  // Types the registry does not know

  /** A root node whose type id is not registered fails with that id, and nothing else is looked at. */
  lemma UnregisteredRoot(reg: Codec.Factories, t: SchemaType, metadata: Option<map<string, string>>)
    requires EncodeEnvelope(t, metadata).Ok?
    requires SchemaTypeID(Schema(t).typ.value).value !in reg
    ensures DecodeEnvelope(reg, EncodeEnvelope(t, metadata).value) == Err(UnknownType(SchemaTypeID(Schema(t).typ.value).value))
  {
    if metadata.Some? {
      Codec.MetadataRoundTrip(metadata.value);
    }
  }

  /** An object type encodes when each of its property nodes does. */
  lemma ObjectEncodes(t: SchemaType)
    requires t.Object?
    requires forall k :: k in t.properties && t.properties[k].Some? ==> Codec.EncodeNode(t.properties[k].value).Ok?
    ensures Codec.EncodeType(t).Ok?
  {
    Codec.PropertiesEncode(t, Text.SortedList(t.properties.Keys), 0);
  }

  /** Decoding properties fails when one of `keys[i..]` is in the JSON and its node fails to decode. */
  lemma {:induction false} DecodePropertiesFails(reg: Codec.Factories, existing: map<string, Option<Node>>, body: Data, keys: seq<string>, i: nat, k: string)
    requires body.Map? && "properties" in body.entries && body.entries["properties"].Map?
    requires forall k :: k in keys ==> k in existing || k in body.entries["properties"].entries
    requires i <= |keys| && k in keys[i..] && k in body.entries["properties"].entries
    requires Codec.DecodeNode(reg, body.entries["properties"].entries[k]).Err?
    ensures Codec.DecodeProperties(reg, existing, body, keys, i, true).Err?
    decreases |keys| - i
  {
    if keys[i] != k {
      var j :| i <= j < |keys| && keys[j] == k;
      assert keys[i + 1..][j - i - 1] == k;
      DecodePropertiesFails(reg, existing, body, keys, i + 1, k);
    }
  }

  /** The JSON of an object type holds each property's node under its key, in the shapes decoding accepts. */
  lemma ObjectEncodedAt(t: SchemaType, k: string)
    requires t.Object? && Codec.EncodeType(t).Ok? && k in t.properties && t.properties[k].Some?
    ensures var body := Codec.EncodeType(t).value;
            body.Map? && body != Map(map[]) && "properties" in body.entries && body.entries["properties"].Map? &&
            Codec.PropertiesShape(body.entries["properties"]) &&
            ("required" in body.entries ==> Codec.RequiredShape(body.entries["required"])) &&
            k in body.entries["properties"].entries &&
            Codec.EncodeNode(t.properties[k].value).Ok? &&
            body.entries["properties"].entries[k] == Codec.EncodeNode(t.properties[k].value).value
  {
    var keys := Text.SortedList(t.properties.Keys);
    var ps := Codec.EncodeProperties(t, keys, 0).value;
    assert keys[0..] == keys;
    assert ps.Keys == t.properties.Keys;
    Codec.EncodedProperty(t, keys, 0, k);
    assert Codec.EncodeType(t) == Ok(Map(Codec.ObjectBody(ps, t.required)));
  }

  /** An object body with a property node that fails to decode fails to decode into the object factory's value. */
  lemma ObjectFailsAt(reg: Codec.Factories, body: Data, k: string)
    requires body.Map? && "properties" in body.entries && body.entries["properties"].Map?
    requires Codec.PropertiesShape(body.entries["properties"])
    requires "required" in body.entries ==> Codec.RequiredShape(body.entries["required"])
    requires k in body.entries["properties"].entries && Codec.DecodeNode(reg, body.entries["properties"].entries[k]).Err?
    ensures Codec.DecodeType(reg, Codec.BuiltinFactories["object"], body, true).Err?
  {
    var f := Codec.BuiltinFactories["object"];
    var all := Text.SortedList(f.properties.Keys + body.entries["properties"].entries.Keys);
    assert k in all;
    DecodePropertiesFails(reg, f.properties, body, all, 0, k);
    assert Codec.DecodeType(reg, f, body, true) == Codec.DecodeMembers(reg, f, body, true) == Codec.DecodeObject(reg, f, body, true);
  }

  /**
   * An object type, registered under its built-in factory, with one
   * property whose type id the registry does not know: the encoding
   * succeeds but decoding it fails, whatever the other properties are.
   */
  lemma UnregisteredProperty(reg: Codec.Factories, t: SchemaType, k: string)
    requires t.Object? && Codec.Registered(reg, t) && Codec.EncodeType(t).Ok?
    requires k in t.properties && t.properties[k].Some? && t.properties[k].value.typ.Some?
    requires SchemaTypeID(t.properties[k].value.typ.value).Ok? && SchemaTypeID(t.properties[k].value.typ.value).value !in reg
    ensures Codec.EncodeNode(Node(Some(t), None)).Ok?
    ensures Codec.DecodeNode(reg, Codec.EncodeNode(Node(Some(t), None)).value).Err?
  {
    ObjectEncodedAt(t, k);
    var body := Codec.EncodeType(t).value;
    ObjectFailsAt(reg, body, k);
  }
}
