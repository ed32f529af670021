// What the list, object and decorator types and the node promise, proved
// about their specification in `Semantics` (which the engine's methods are
// proved to follow).
module ContainerLaws {
  import opened Wrappers
  import opened Values
  import opened SchemaErrors
  import opened Paths
  import opened Properties
  import opened Schemas
  import opened Utils
  import opened Sequences
  import opened Semantics
  import Text

  // ---------------------------------------------------------------------
  // list

  /** The entries element `k` contributes: under Parse and Serialize, its causes when it fails. */
  ghost function ElementEntries(t: SchemaType, action: Action, trail: Trail, items: seq<Data>, k: nat): seq<Entry<Trail>>
    requires t.List? && t.item.Some? && TypeNilFree(t) && k < |items|
  {
    var r := ElementRun(t, action, trail, items, k);
    if Processes(action) && r.out.err.Some? then NewSchemaWithCasting(trail, r.out.err.value).errors else []
  }

  /** The entries of the first `i` elements, in element order. */
  ghost function ElementEntriesUpTo(t: SchemaType, action: Action, trail: Trail, items: seq<Data>, i: nat): seq<Entry<Trail>>
    requires t.List? && t.item.Some? && TypeNilFree(t) && i <= |items|
  {
    if i == 0 then [] else ElementEntriesUpTo(t, action, trail, items, i - 1) + ElementEntries(t, action, trail, items, i - 1)
  }

  /**
   * The list loop, element by element: under Parse and Serialize output `k`
   * is element `k`'s output; under any other action nothing is collected;
   * the aggregate holds every failing element's entries in element order.
   */
  lemma ListFold(t: SchemaType, action: Action, trail: Trail, items: seq<Data>, i: nat)
    requires t.List? && t.item.Some? && TypeNilFree(t) && i <= |items|
    ensures Processes(action) ==>
              |ListUpTo(t, action, trail, items, i).out| == i &&
              forall k :: 0 <= k < i ==> ListUpTo(t, action, trail, items, i).out[k] == ElementRun(t, action, trail, items, k).out.data
    ensures !Processes(action) ==> ListUpTo(t, action, trail, items, i).out == []
    ensures ListUpTo(t, action, trail, items, i).agg.errors == ElementEntriesUpTo(t, action, trail, items, i)
  {
    ListFoldOut(t, action, trail, items, i);
    ListFoldAgg(t, action, trail, items, i);
  }

  /** The outputs the list loop collects, element by element. */
  lemma {:induction false} ListFoldOut(t: SchemaType, action: Action, trail: Trail, items: seq<Data>, i: nat)
    requires t.List? && t.item.Some? && TypeNilFree(t) && i <= |items|
    ensures Processes(action) ==>
              |ListUpTo(t, action, trail, items, i).out| == i &&
              forall k :: 0 <= k < i ==> ListUpTo(t, action, trail, items, i).out[k] == ElementRun(t, action, trail, items, k).out.data
    ensures !Processes(action) ==> ListUpTo(t, action, trail, items, i).out == []
  {
    if i > 0 {
      ListFoldOut(t, action, trail, items, i - 1);
      ListNext(t, action, trail, items, i - 1);
    }
  }

  /** The entries the list loop aggregates, element by element. */
  lemma {:induction false} ListFoldAgg(t: SchemaType, action: Action, trail: Trail, items: seq<Data>, i: nat)
    requires t.List? && t.item.Some? && TypeNilFree(t) && i <= |items|
    ensures ListUpTo(t, action, trail, items, i).agg.errors == ElementEntriesUpTo(t, action, trail, items, i)
  {
    if i > 0 {
      ListFoldAgg(t, action, trail, items, i - 1);
      ListNext(t, action, trail, items, i - 1);
    }
  }

  /**
   * Go `ListType.Process`: the checks come in order (item type, shape,
   * lower bound, upper bound) and each gives a single entry; within the
   * inclusive bounds the value is the list of the elements' outputs (empty
   * for actions other than Parse and Serialize), or nil and the failing
   * elements' entries.
   */
  lemma ListOutcome(t: SchemaType, action: Action, trail: Trail, v: Data)
    requires t.List? && TypeNilFree(t)
    ensures t.item.None? ==> EvalList(t, action, trail, v) == Fail(trail, ListItemSchemaNil(action))
    ensures t.item.Some? && !v.Seq? ==> EvalList(t, action, trail, v) == Fail(trail, NotAList(action))
    ensures t.item.Some? && v.Seq? && t.minLen.Some? && t.minLen.value > |v.items| ==>
              EvalList(t, action, trail, v) == Fail(trail, TooShort(|v.items|, t.minLen.value))
    ensures t.item.Some? && v.Seq? && (t.minLen.None? || t.minLen.value <= |v.items|) && t.maxLen.Some? && t.maxLen.value < |v.items| ==>
              EvalList(t, action, trail, v) == Fail(trail, TooLong(|v.items|, t.maxLen.value))
    ensures t.item.Some? && v.Seq? && InBounds(|v.items|, t.minLen, t.maxLen) ==>
              var r := EvalList(t, action, trail, v);
              var es := ElementEntriesUpTo(t, action, trail, v.items, |v.items|);
              (|es| > 0 ==> r == Outcome(Null, Some(Aggregate(SchemaError(es))))) &&
              (|es| == 0 && Processes(action) ==>
                 r.err.None? && r.data.Seq? && |r.data.items| == |v.items| &&
                 forall k :: 0 <= k < |v.items| ==> r.data.items[k] == ElementRun(t, action, trail, v.items, k).out.data) &&
              (!Processes(action) ==> r == Outcome(Seq([]), None))
  {
    if t.item.Some? && v.Seq? {
      ListFold(t, action, trail, v.items, |v.items|);
      if !Processes(action) {
        ListQuiet(t, action, trail, v.items, |v.items|);
      }
    }
  }

  /** Under an action other than Parse and Serialize no element contributes an entry. */
  lemma {:induction false} ListQuiet(t: SchemaType, action: Action, trail: Trail, items: seq<Data>, i: nat)
    requires t.List? && t.item.Some? && TypeNilFree(t) && i <= |items| && !Processes(action)
    ensures ElementEntriesUpTo(t, action, trail, items, i) == []
  {
    if i > 0 {
      ListQuiet(t, action, trail, items, i - 1);
    }
  }

  // ---------------------------------------------------------------------
  // object

  /**
   * Go `ObjectType.Process` before any key is visited: a value that is not
   * a map gives one entry, and so do missing required keys, listing
   * exactly the required keys the input lacks, in the required order.
   */
  lemma ObjectChecks(t: SchemaType, action: Action, trail: Trail, v: Data)
    requires t.Object? && TypeNilFree(t)
    ensures !v.Map? ==> EvalObject(t, action, trail, v) == Fail(trail, NotAnObject)
    ensures v.Map? && (exists x :: x in t.required && x !in v.entries) ==>
              var diff := Diff(t.required, v.entries.Keys);
              EvalObject(t, action, trail, v) == Fail(trail, MissingRequired(diff)) &&
              (forall x :: x in diff <==> x in t.required && x !in v.entries) &&
              (forall x :: x !in v.entries ==> multiset(diff)[x] == multiset(t.required)[x])
    ensures v.Map? && (forall x :: x in t.required ==> x in v.entries) ==>
              EvalObject(t, action, trail, v) == ObjectVisit(t, action, trail, v.entries)
  {
    if v.Map? {
      var diff := Diff(t.required, v.entries.Keys);
      forall x ensures x in diff <==> x in t.required && x !in v.entries {
        DiffMembership(t.required, v.entries.Keys, x);
      }
      forall x | x !in v.entries ensures multiset(diff)[x] == multiset(t.required)[x] {
        DiffMultiplicity(t.required, v.entries.Keys, x);
      }
      if exists x :: x in t.required && x !in v.entries {
        var x :| x in t.required && x !in v.entries;
        ObjectMissing(t, action, trail, v, x);
      } else {
        ObjectPresent(t, action, trail, v);
      }
    }
  }

  /** A required key the map lacks fails the object with the missing keys. */
  lemma ObjectMissing(t: SchemaType, action: Action, trail: Trail, v: Data, x: string)
    requires t.Object? && TypeNilFree(t) && v.Map? && x in t.required && x !in v.entries
    ensures EvalObject(t, action, trail, v) == Fail(trail, MissingRequired(Diff(t.required, v.entries.Keys)))
  {
    DiffMembership(t.required, v.entries.Keys, x);
    assert |t.required| > 0 && |Diff(t.required, v.entries.Keys)| > 0;
  }

  /** With every required key present, the object visits the map's keys. */
  lemma ObjectPresent(t: SchemaType, action: Action, trail: Trail, v: Data)
    requires t.Object? && TypeNilFree(t) && v.Map? && forall x :: x in t.required ==> x in v.entries
    ensures EvalObject(t, action, trail, v) == ObjectVisit(t, action, trail, v.entries)
  {
    var diff := Diff(t.required, v.entries.Keys);
    if |diff| > 0 {
      DiffMembership(t.required, v.entries.Keys, diff[0]);
      assert false;
    }
  }

  /** What the object gives once its required keys are present: every input key visited. */
  ghost function ObjectVisit(t: SchemaType, action: Action, trail: Trail, d: map<string, Data>): Outcome<Trail>
    requires t.Object? && TypeNilFree(t)
  {
    var es := ObjectEntries(t, action, trail, d, Text.SortedList(d.Keys));
    if |es| > 0 then Outcome(Null, Some(Aggregate(SchemaError(es))))
    else Outcome(Map(ObjectOut(t, action, trail, d, d.Keys)), None)
  }

  /**
   * Every input key without a property puts one "unknown key" entry into
   * the aggregate, and nothing else, so the object fails with a nil value.
   */
  lemma ObjectUnknownKey(t: SchemaType, action: Action, trail: Trail, d: map<string, Data>, k: string)
    requires t.Object? && TypeNilFree(t) && k in d && k !in t.properties
    ensures KeyEntries(t, action, trail, d, k) == [Entry(trail, UnknownKey(k))]
    ensures var r := ObjectVisit(t, action, trail, d);
      r.data == Null && r.err.Some? && r.err.value.Aggregate? && Entry(trail, UnknownKey(k)) in r.err.value.agg.errors
  {
    var f := KeyEntriesOf(t, action, trail, d);
    KeyEntriesAt(t, action, trail, d, k);
    assert Entry(trail, UnknownKey(k)) in f(k);
    ConcatMapHas(f, Text.SortedList(d.Keys), k, Entry(trail, UnknownKey(k)));
  }

  /**
   * A successful object has exactly the input's keys, every one of them a
   * property; under Parse and Serialize each holds its property's output
   * (so an optional property absent from the input stays absent), under
   * any other action the output is empty.
   */
  lemma ObjectSuccess(t: SchemaType, action: Action, trail: Trail, d: map<string, Data>)
    requires t.Object? && TypeNilFree(t)
    ensures var r := ObjectVisit(t, action, trail, d);
      r.err.None? ==>
        (forall k :: k in d ==> k in t.properties) &&
        (Processes(action) ==>
           r.data.Map? && r.data.entries.Keys == d.Keys &&
           forall k :: k in d ==> r.data.entries[k] == KeyRun(t, action, trail, d, k).out.data) &&
        (!Processes(action) ==> r.data == Map(map[]))
  {
    var r := ObjectVisit(t, action, trail, d);
    if r.err.None? {
      forall k | k in d ensures k in t.properties {
        if k !in t.properties {
          ObjectUnknownKey(t, action, trail, d, k);
        }
      }
    }
  }

  // ---------------------------------------------------------------------
  // decorator and node

  /**
   * Go `DecoratedType.Process`: the handler registered for the action wins,
   * then the default handler, then the wrapped type; with none of them the
   * decorator reports that no type is set.
   */
  lemma DecoratorDispatch(t: SchemaType, action: Action, trail: Trail, ov: Option<Data>)
    requires t.Decorated? && TypeNilFree(t)
    ensures var v := CurrentValue(trail, ov);
      (action in t.handlers ==> EvalType(t, action, trail, ov) == Run(FromLeaf(t.handlers[action](action, v), trail), ov)) &&
      (action !in t.handlers && t.defaultHandler.Some? ==>
         EvalType(t, action, trail, ov) == Run(FromLeaf(t.defaultHandler.value(action, v), trail), ov)) &&
      (action !in t.handlers && t.defaultHandler.None? && t.original.None? ==>
         EvalType(t, action, trail, ov) == Run(Outcome(Null, Some(Plain(NoSchemaTypeSet))), ov)) &&
      (action !in t.handlers && t.defaultHandler.None? && t.original.Some? ==>
         EvalType(t, action, trail, ov) == EvalType(t.original.value, action, trail, ov))
  {
  }

  /** Go `SchemaNode.Process`: a node without a type fails with the plain "no schema type" error. */
  lemma NodeWithoutType(n: Node, action: Action, trail: Trail, ov: Option<Data>)
    requires NilFree(n) && n.typ.None?
    ensures Eval(n, action, trail, ov) == Run(Outcome(Null, Some(Plain(NoSchemaTypeSet))), ov)
  {
  }
}
