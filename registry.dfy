// The registry decoding resolves "$type" ids with (Go
// `PongoSchemaUnmarshalMapper`): a map from type id to factory, shared by
// every copy of the registry struct that `Set` hands out. A factory is
// modelled by the value it returns, which is the same on every call.
module Registries {
  import opened Wrappers
  import opened SchemaErrors
  import opened Schemas
  import opened StringTypes
  import opened IntTypes
  import opened BoolTypes
  import opened BytesTypes
  import opened Properties
  import Codec
  import Envelopes

  // ---------------------------------------------------------------------
  // Registrations as values

  /**
   * Registering `fs` one after the other into `m`: each under its own id,
   * a later one replacing an earlier one of the same id; the first whose
   * id cannot be derived stops with its error.
   */
  function Registrations(m: Codec.Factories, fs: seq<SchemaType>): (r: Result<Codec.Factories, Cause>)
    ensures r.Ok? <==> forall i :: 0 <= i < |fs| ==> SchemaTypeID(fs[i]).Ok?
    ensures r.Err? ==> exists i :: 0 <= i < |fs| && SchemaTypeID(fs[i]) == Err(r.error)
    ensures r.Ok? && |fs| > 0 ==> SchemaTypeID(fs[|fs| - 1]).value in r.value && r.value[SchemaTypeID(fs[|fs| - 1]).value] == fs[|fs| - 1]
    decreases |fs|
  {
    if fs == [] then Ok(m)
    else
      var prev := Registrations(m, fs[..|fs| - 1]);
      var f := fs[|fs| - 1];
      var id := SchemaTypeID(f);
      if prev.Err? then prev
      else if id.Err? then Err(id.error)
      else Ok(prev.value[id.value := f])
  }

  /** The ids of factories whose ids can all be derived. */
  function IdsOf(fs: seq<SchemaType>): (ids: seq<string>)
    requires forall i :: 0 <= i < |fs| ==> SchemaTypeID(fs[i]).Ok?
    ensures |ids| == |fs| && forall i :: 0 <= i < |fs| ==> ids[i] == SchemaTypeID(fs[i]).value
  {
    seq(|fs|, i requires 0 <= i < |fs| => SchemaTypeID(fs[i]).value)
  }

  /** The ids registered are those `m` had and those of `fs`. */
  lemma {:induction false} RegisteredKeys(m: Codec.Factories, fs: seq<SchemaType>)
    requires Registrations(m, fs).Ok?
    ensures forall k :: k in Registrations(m, fs).value <==> k in m || k in IdsOf(fs)
    decreases |fs|
  {
    if fs != [] {
      var prefix := fs[..|fs| - 1];
      RegisteredKeys(m, prefix);
      assert IdsOf(fs) == IdsOf(prefix) + [SchemaTypeID(fs[|fs| - 1]).value];
    }
  }

  /**
   * Registering a factory whose id is already taken replaces the earlier
   * factory and leaves every other entry as it was.
   */
  lemma Overwrite(m: Codec.Factories, fs: seq<SchemaType>, f: SchemaType)
    requires Registrations(m, fs).Ok? && SchemaTypeID(f).Ok?
    ensures Registrations(m, fs + [f]) == Ok(Registrations(m, fs).value[SchemaTypeID(f).value := f])
  {
    assert (fs + [f])[..|fs + [f]| - 1] == fs;
  }

  /** The factories of the default registry, in the order the list is visited here. */
  function DefaultFactories(float64: SchemaType, datetime: SchemaType): (fs: seq<SchemaType>)
    ensures |fs| == 11
  {
    [AnyOf([None]), OneOf([None]), AllOf([None], NoFlags), List(None, None, None), Object(map[], []),
     StringLeaf(NewString), IntLeaf(NewInt), float64, BytesLeaf(NewBytes), BoolLeaf(NewBool), datetime]
  }

  /** The eleven ids of the default registry. */
  const DefaultIdList: seq<string> := ["anyOf", "oneOf", "allOf", "list", "object", "string", "int", "float64", "bytes", "bool", "datetime"]

  /** No id appears twice in the default list. */
  lemma DefaultIdsDistinct()
    ensures forall i, j :: 0 <= i < j < |DefaultIdList| ==> DefaultIdList[i] != DefaultIdList[j]
  {
  }

  /** The content of the default registry: each default id with the factory of the same position. */
  function DefaultEntries(float64: SchemaType, datetime: SchemaType): (m: Codec.Factories)
    ensures forall k :: k in m <==> k in DefaultIdList
    ensures forall i :: 0 <= i < |DefaultIdList| ==> m[DefaultIdList[i]] == DefaultFactories(float64, datetime)[i]
  {
    DefaultIdsDistinct();
    var fs := DefaultFactories(float64, datetime);
    map i | 0 <= i < |DefaultIdList| :: DefaultIdList[i] := fs[i]
  }

  /** A float64 and a datetime factory whose values answer with the ids "float64" and "datetime". */
  predicate DefaultIds(float64: SchemaType, datetime: SchemaType)
  {
    SchemaTypeID(float64) == Ok("float64") && SchemaTypeID(datetime) == Ok("datetime")
  }

  /** The default factories answer with the eleven ids. */
  lemma DefaultFactoryIds(float64: SchemaType, datetime: SchemaType)
    requires DefaultIds(float64, datetime)
    ensures Registrations(map[], DefaultFactories(float64, datetime)).Ok?
    ensures IdsOf(DefaultFactories(float64, datetime)) == DefaultIdList
  {
    var fs := DefaultFactories(float64, datetime);
    assert forall i :: 0 <= i < |fs| ==> SchemaTypeID(fs[i]) == Ok(DefaultIdList[i]);
  }

  /** Registering the default list into an empty map gives exactly the default content. */
  lemma DefaultRegistrations(float64: SchemaType, datetime: SchemaType)
    requires DefaultIds(float64, datetime)
    ensures Registrations(map[], DefaultFactories(float64, datetime)) == Ok(DefaultEntries(float64, datetime))
  {
    var fs := DefaultFactories(float64, datetime);
    DefaultFactoryIds(float64, datetime);
    var r := Registrations(map[], fs).value;
    var e := DefaultEntries(float64, datetime);
    RegisteredKeys(map[], fs);
    assert r.Keys == e.Keys;
    forall k | k in r ensures r[k] == e[k] {
      var i :| 0 <= i < |DefaultIdList| && DefaultIdList[i] == k;
      DefaultEntryAt(float64, datetime, i);
    }
    assert r == e;
  }

  /** The default id at position `i` is registered with the factory of the same position. */
  lemma DefaultEntryAt(float64: SchemaType, datetime: SchemaType, i: nat)
    requires DefaultIds(float64, datetime) && i < |DefaultIdList|
    ensures Registrations(map[], DefaultFactories(float64, datetime)).Ok?
    ensures DefaultIdList[i] in Registrations(map[], DefaultFactories(float64, datetime)).value
    ensures Registrations(map[], DefaultFactories(float64, datetime)).value[DefaultIdList[i]]
            == DefaultFactories(float64, datetime)[i]
  {
    var fs := DefaultFactories(float64, datetime);
    DefaultFactoryIds(float64, datetime);
    DefaultIdsDistinct();
    RegisteredOnce(map[], fs, i);
  }

  /** The default content resolves every built-in type to its built-in factory. */
  lemma DefaultRegistersBuiltins(float64: SchemaType, datetime: SchemaType, t: SchemaType)
    requires SchemaTypeID(t).Ok? && SchemaTypeID(t).value in Codec.BuiltinFactories
    ensures Codec.Registered(DefaultEntries(float64, datetime), t)
  {
    var e := DefaultEntries(float64, datetime);
    var id := SchemaTypeID(t).value;
    var i := BuiltinIndex(id);
    BuiltinAt(float64, datetime, i);
    assert e[DefaultIdList[i]] == DefaultFactories(float64, datetime)[i];
  }

  /** Every built-in id is in the default list, at a position other than float64's and datetime's. */
  lemma BuiltinIndex(id: string) returns (i: nat)
    requires id in Codec.BuiltinFactories
    ensures i < |DefaultIdList| && i != 7 && i != 10 && DefaultIdList[i] == id
  {
    i := if id == "anyOf" then 0 else if id == "oneOf" then 1 else if id == "allOf" then 2
         else if id == "list" then 3 else if id == "object" then 4 else if id == "string" then 5
         else if id == "int" then 6 else if id == "bytes" then 8 else 9;
  }

  /** Each default factory other than float64 and datetime is the built-in factory of its id. */
  lemma BuiltinAt(float64: SchemaType, datetime: SchemaType, i: nat)
    requires i < |DefaultIdList| && i != 7 && i != 10
    ensures DefaultIdList[i] in Codec.BuiltinFactories
    ensures Codec.BuiltinFactories[DefaultIdList[i]] == DefaultFactories(float64, datetime)[i]
  {
  }

  /** An entry registered by one factory of the list only is that factory. */
  lemma {:induction false} RegisteredOnce(m: Codec.Factories, fs: seq<SchemaType>, i: nat)
    requires Registrations(m, fs).Ok? && i < |fs|
    requires forall j :: 0 <= j < |fs| && j != i ==> IdsOf(fs)[j] != IdsOf(fs)[i]
    ensures SchemaTypeID(fs[i]).value in Registrations(m, fs).value
    ensures Registrations(m, fs).value[SchemaTypeID(fs[i]).value] == fs[i]
    decreases |fs|
  {
    if i < |fs| - 1 {
      var prefix, last := fs[..|fs| - 1], fs[|fs| - 1];
      assert forall j :: 0 <= j < |prefix| ==> IdsOf(prefix)[j] == IdsOf(fs)[j];
      RegisteredOnce(m, prefix, i);
      assert fs == prefix + [last];
      Overwrite(m, prefix, last);
      assert IdsOf(fs)[|fs| - 1] != IdsOf(fs)[i];
    }
  }

  // ---------------------------------------------------------------------
  // The registry, updated in place

  /** Go's `map[string]SchemaFactory`, which every copy of the registry struct shares. */
  class FactoryTable {
    var entries: Codec.Factories

    constructor ()
      ensures entries == map[]
    {
      entries := map[];
    }
  }

  /** Go's `PongoSchemaUnmarshalMapper`: a struct holding the shared map. */
  class Registry {
    const table: FactoryTable

    /** A registry over `table`. */
    constructor (table: FactoryTable)
      ensures this.table == table
    {
      this.table := table;
    }

    /** Go `Get`: nil for an unknown id, otherwise the value of a fresh call to the factory. */
    function Get(id: string): (r: Option<SchemaType>)
      reads table
      ensures r.None? <==> id !in table.entries
      ensures r.Some? ==> r.value == table.entries[id]
    {
      if id in table.entries then Some(table.entries[id]) else None
    }

    /**
     * Go `Set`: `f`'s id cannot be derived, then the error and the map as it
     * was; otherwise `f` goes in under its id, replacing any factory that
     * had it, and a new registry struct sharing the same map comes back (so
     * a caller that drops the result has registered too).
     */
    method Set(f: SchemaType) returns (r: Result<Registry, Cause>)
      modifies table
      ensures SchemaTypeID(f).Err? ==> r == Err(SchemaTypeID(f).error) && table.entries == old(table.entries)
      ensures SchemaTypeID(f).Ok? ==> r.Ok? && fresh(r.value) && r.value.table == table
      ensures SchemaTypeID(f).Ok? ==> table.entries == old(table.entries)[SchemaTypeID(f).value := f]
    {
      var id := SchemaTypeID(f);
      if id.Err? {
        return Err(id.error);
      }
      table.entries := table.entries[id.value := f];
      var copy := new Registry(table);
      return Ok(copy);
    }

    /** Go `Clone`: a registry over a new map holding the same entries, copied one by one. */
    method Clone() returns (c: Registry)
      ensures fresh(c) && fresh(c.table)
      ensures c.table.entries == table.entries
    {
      var t := new FactoryTable();
      var todo := table.entries.Keys;
      while todo != {}
        invariant todo <= table.entries.Keys
        invariant t.entries.Keys == table.entries.Keys - todo
        invariant forall k :: k in t.entries ==> t.entries[k] == table.entries[k]
        decreases todo
      {
        var k :| k in todo;
        t.entries := t.entries[k := table.entries[k]];
        todo := todo - {k};
      }
      c := new Registry(t);
    }
  }

  /**
   * Go `DefaultSchemaUnmarshalMap`: a new registry, then `Set` with each
   * default factory, replacing the registry by the one `Set` returns. A
   * factory whose id cannot be derived ends it (Go panics; here its error
   * comes back).
   */
  method Default(float64: SchemaType, datetime: SchemaType) returns (r: Result<Registry, Cause>)
    ensures r.Ok? <==> Registrations(map[], DefaultFactories(float64, datetime)).Ok?
    ensures r.Ok? ==> fresh(r.value.table) && r.value.table.entries == Registrations(map[], DefaultFactories(float64, datetime)).value
  {
    var fs := DefaultFactories(float64, datetime);
    var t := new FactoryTable();
    var s := new Registry(t);
    for i := 0 to |fs|
      invariant s.table == t
      invariant Registrations(map[], fs[..i]).Ok?
      invariant t.entries == Registrations(map[], fs[..i]).value
    {
      assert fs[..i + 1][..i] == fs[..i];
      var next := s.Set(fs[i]);
      if next.Err? {
        assert fs[..i + 1][i] == fs[i];
        return Err(next.error);
      }
      s := next.value;
    }
    assert fs[..|fs|] == fs;
    return Ok(s);
  }

  /** With float64 and datetime answering to their ids, the default registry holds exactly the default content. */
  method DefaultContent(float64: SchemaType, datetime: SchemaType) returns (r: Registry)
    requires DefaultIds(float64, datetime)
    ensures fresh(r.table) && r.table.entries == DefaultEntries(float64, datetime)
  {
    DefaultRegistrations(float64, datetime);
    var d := Default(float64, datetime);
    r := d.value;
  }

  /** Setting a factory on a clone leaves the original registry as it was. */
  method SetOnClone(p: Registry, f: SchemaType) returns (c: Registry)
    ensures fresh(c.table) && p.table.entries == old(p.table.entries)
    ensures SchemaTypeID(f).Ok? ==> c.Get(SchemaTypeID(f).value) == Some(f)
    ensures forall id :: (SchemaTypeID(f).Ok? ==> id != SchemaTypeID(f).value) ==> c.Get(id) == p.Get(id)
  {
    c := p.Clone();
    var _ := c.Set(f);
  }

  // ---------------------------------------------------------------------
  // The process-wide registry

  /** The package variable holding the registry `UnmarshalPongoSchema` uses. */
  class GlobalRegistry {
    var current: Registry

    /** The registry the package starts with: the default content. */
    constructor (float64: SchemaType, datetime: SchemaType)
      ensures fresh(current) && fresh(current.table)
      ensures current.table.entries == DefaultEntries(float64, datetime)
    {
      var t := new FactoryTable();
      t.entries := DefaultEntries(float64, datetime);
      current := new Registry(t);
    }

    /** Go `GlobalPongoSchemaUnmarshalMapper`: a clone, so changes to it never reach the global. */
    method Get() returns (c: Registry)
      ensures fresh(c) && fresh(c.table) && c.table.entries == current.table.entries
    {
      c := current.Clone();
    }

    /** Go `SetGlobalPongoSchemaUnmarshalMapper`: the global becomes `r` itself (not a copy). */
    method Set(r: Registry)
      modifies this
      ensures current == r
    {
      current := r;
    }
  }

  /** A registry of int, string and object only. */
  const Restricted: Codec.Factories := map["int" := IntLeaf(NewInt), "string" := StringLeaf(NewString), "object" := Object(map[], [])]

  /**
   * A global registry replaced by one holding int, string and object only,
   * each registered with the result of `Set` dropped: the registry decoding
   * then uses holds exactly those three factories.
   */
  method RestrictGlobal(g: GlobalRegistry) returns (used: Registry)
    modifies g
    ensures fresh(used.table)
    ensures used.table.entries == Restricted
  {
    var t := new FactoryTable();
    var r := new Registry(t);
    var _ := r.Set(IntLeaf(NewInt));
    var _ := r.Set(StringLeaf(NewString));
    var _ := r.Set(Object(map[], []));
    g.Set(r);
    used := g.Get();
  }

  /** With only int, string and object registered, an object of an int and a string round-trips. */
  lemma RestrictedAccepts()
    ensures Codec.RoundTrips(Restricted, Node(Some(Object(map["aInt" := Some(Node(Some(IntLeaf(NewInt)), None)),
                                                             "aString" := Some(Node(Some(StringLeaf(NewString)), None))], [])), None))
  {
    var n := Node(Some(Object(map["aInt" := Some(Node(Some(IntLeaf(NewInt)), None)),
                                  "aString" := Some(Node(Some(StringLeaf(NewString)), None))], [])), None);
    assert Codec.Encodable(Restricted, n.typ.value.properties["aInt"].value);
    assert Codec.Encodable(Restricted, n.typ.value.properties["aString"].value);
    assert Codec.Encodable(Restricted, n);
    Codec.NodeRoundTrip(Restricted, n);
  }

  /** An object of an int property "aInt" and a float64 property "aFloat". */
  function MixedObject(float64: SchemaType): SchemaType
  {
    Object(map["aInt" := Some(Node(Some(IntLeaf(NewInt)), None)), "aFloat" := Some(Node(Some(float64), None))], [])
  }

  /** With only int, string and object registered, an object with a float64 property does not decode. */
  lemma RestrictedRejects(float64: SchemaType)
    requires SchemaTypeID(float64) == Ok("float64") && Codec.EncodeType(float64).Ok?
    ensures var n := Node(Some(Object(map["aInt" := Some(Node(Some(IntLeaf(NewInt)), None)),
                                          "aFloat" := Some(Node(Some(float64), None))], [])), None);
            Codec.EncodeNode(n).Ok? && Codec.DecodeNode(Restricted, Codec.EncodeNode(n).value).Err?
  {
    var t := MixedObject(float64);
    MixedObjectFacts(float64);
    Envelopes.UnregisteredProperty(Restricted, t, "aFloat");
  }

  /** The mixed object encodes, its own id is registered, and its float64 property is not. */
  lemma MixedObjectFacts(float64: SchemaType)
    requires SchemaTypeID(float64) == Ok("float64") && Codec.EncodeType(float64).Ok?
    ensures var t := MixedObject(float64);
      t.Object? && Codec.Registered(Restricted, t) && Codec.EncodeType(t).Ok? &&
      "aFloat" in t.properties && t.properties["aFloat"] == Some(Node(Some(float64), None)) &&
      "float64" !in Restricted
  {
    MixedObjectEncodes(float64);
    MixedObjectRegistered(float64);
    RestrictedHasObject();
  }

  /** The mixed object's own id, "object", is registered with the built-in factory. */
  lemma MixedObjectRegistered(float64: SchemaType)
    ensures Codec.Registered(Restricted, MixedObject(float64))
  {
    RestrictedHasObject();
    assert SchemaTypeID(MixedObject(float64)) == Ok("object");
  }

  /** Both properties of the mixed object encode, so the object does. */
  lemma MixedObjectEncodes(float64: SchemaType)
    requires SchemaTypeID(float64) == Ok("float64") && Codec.EncodeType(float64).Ok?
    ensures Codec.EncodeType(MixedObject(float64)).Ok?
  {
    var t := MixedObject(float64);
    var a, f := Node(Some(IntLeaf(NewInt)), None), Node(Some(float64), None);
    NodeEncodes(a);
    NodeEncodes(f);
    assert t.properties == map["aInt" := Some(a), "aFloat" := Some(f)];
    forall k | k in t.properties && t.properties[k].Some?
      ensures Codec.EncodeNode(t.properties[k].value).Ok?
    {
      assert t.properties[k] == Some(a) || t.properties[k] == Some(f);
    }
    Envelopes.ObjectEncodes(t);
  }

  /** The restricted registry resolves "object" to the built-in factory and does not know "float64". */
  lemma RestrictedHasObject()
    ensures "object" in Codec.BuiltinFactories && "object" in Restricted && Restricted["object"] == Codec.BuiltinFactories["object"]
    ensures "float64" !in Restricted
  {
  }

  /** A node whose type has an id and a JSON form encodes. */
  lemma NodeEncodes(n: Node)
    requires n.typ.Some? && SchemaTypeID(n.typ.value).Ok? && Codec.EncodeType(n.typ.value).Ok?
    ensures Codec.EncodeNode(n).Ok?
  {
  }
}
