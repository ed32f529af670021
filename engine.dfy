// The processing engine: the `Process` method of the node and of every
// schema type, running on a cursor whose frames are shared objects. The
// allOf type writes its chained results into the top frame; the list and
// object types push a fresh frame per child. Every method is proved to
// return what `Semantics` specifies, up to the order of the aggregate's
// entries, and to leave the top frame's override as specified.
module Engine {
  import opened Wrappers
  import opened Values
  import opened SchemaErrors
  import opened Paths
  import opened DataPointers
  import opened Properties
  import opened Schemas
  import opened Utils
  import opened Sequences
  import opened Semantics
  import Text

  /** Go `SchemaNode.Process`: the node's type processes, or no type is set. */
  method ProcessNode(n: Node, action: Action, dp: DataPointer) returns (out: Outcome<Path>)
    requires NilFree(n)
    modifies dp.path.Top()
    ensures Conforms(out, Eval(n, action, dp.path.View(), old(dp.path.TopOverride())).out)
    ensures dp.path.TopOverride() == Eval(n, action, dp.path.View(), old(dp.path.TopOverride())).ov
    decreases n, 0, 0
  {
    if n.typ.Some? {
      out := ProcessType(n.typ.value, action, dp);
    } else {
      out := Outcome(Null, Some(Plain(NoSchemaTypeSet)));
    }
  }

  /** Go `SchemaNode.Parse`. */
  method ParseNode(n: Node, dp: DataPointer) returns (out: Outcome<Path>)
    requires NilFree(n)
    modifies dp.path.Top()
    ensures Conforms(out, Eval(n, PARSE, dp.path.View(), old(dp.path.TopOverride())).out)
    decreases n, 1, 0
  {
    out := ProcessNode(n, PARSE, dp);
  }

  /** Go `SchemaNode.Serialize`. */
  method SerializeNode(n: Node, dp: DataPointer) returns (out: Outcome<Path>)
    requires NilFree(n)
    modifies dp.path.Top()
    ensures Conforms(out, Eval(n, SERIALIZE, dp.path.View(), old(dp.path.TopOverride())).out)
    decreases n, 1, 0
  {
    out := ProcessNode(n, SERIALIZE, dp);
  }

  /** The `Process` method of each schema type. */
  method ProcessType(t: SchemaType, action: Action, dp: DataPointer) returns (out: Outcome<Path>)
    requires TypeNilFree(t)
    modifies dp.path.Top()
    ensures Conforms(out, EvalType(t, action, dp.path.View(), old(dp.path.TopOverride())).out)
    ensures dp.path.TopOverride() == EvalType(t, action, dp.path.View(), old(dp.path.TopOverride())).ov
    decreases t, 2, 0
  {
    ghost var trail, ov := dp.path.View(), dp.path.TopOverride();
    match t
    case AllOf(_, _) =>
      EvalAllOf(t, action, trail, ov);
      out := ProcessAllOf(t, action, dp);
    case AnyOf(_) =>
      EvalAnyOf(t, action, trail, ov);
      out := ProcessAnyOf(t, action, dp);
    case OneOf(_) =>
      EvalOneOf(t, action, trail, ov);
      out := ProcessOneOf(t, action, dp);
    case List(_, _, _) =>
      EvalListType(t, action, trail, ov);
      out := ProcessList(t, action, dp);
    case Object(_, _) =>
      EvalObjectType(t, action, trail, ov);
      out := ProcessObject(t, action, dp);
    case Decorated(_, _, _) => out := ProcessDecorated(t, action, dp);
    case Wrapped(node) => out := ProcessNode(node, action, dp);
    case _ => out := ProcessLeaf(t, action, dp);
  }

  /** The types without children: their result depends on the value under the cursor only. */
  method ProcessLeaf(t: SchemaType, action: Action, dp: DataPointer) returns (out: Outcome<Path>)
    requires t.StringLeaf? || t.IntLeaf? || t.BoolLeaf? || t.BytesLeaf? || t.Foreign?
    ensures Conforms(out, EvalType(t, action, dp.path.View(), dp.path.TopOverride()).out)
    ensures EvalType(t, action, dp.path.View(), dp.path.TopOverride()).ov == dp.path.TopOverride()
  {
    var v := dp.Get();
    var r: LeafOutcome;
    if t.StringLeaf? {
      r := t.stringType.Process(action, v);
    } else if t.IntLeaf? {
      r := t.intType.Process(action, v);
    } else if t.BoolLeaf? {
      r := t.boolType.Process(action, v);
    } else if t.BytesLeaf? {
      r := t.bytesType.Process(action, v);
    } else {
      r := t.process(action, v);
    }
    out := Leaf(r, dp);
  }

  /** A leaf's result placed on the cursor's path. */
  method Leaf(r: LeafOutcome, dp: DataPointer) returns (out: Outcome<Path>)
    ensures Conforms(out, FromLeaf(r, dp.path.View()))
  {
    out := FromLeaf(r, dp.path);
    FromLeafConforms(r, dp.path, dp.path.View());
  }

  /** A nil value with a one-entry aggregate at the cursor's path. */
  method FailAt(dp: DataPointer, c: Cause) returns (out: Outcome<Path>)
    ensures Conforms(out, Fail(dp.path.View(), c))
  {
    out := Outcome(Null, Some(Aggregate(NewSchemaErrorWithError(dp.path, c))));
    FailConforms(dp.path, dp.path.View(), c);
  }

  /**
   * Go `DecoratedType.Process`: the handler registered for the action, else
   * the default handler, else the decorated type itself.
   */
  method ProcessDecorated(t: SchemaType, action: Action, dp: DataPointer) returns (out: Outcome<Path>)
    requires t.Decorated? && TypeNilFree(t)
    modifies dp.path.Top()
    ensures Conforms(out, EvalType(t, action, dp.path.View(), old(dp.path.TopOverride())).out)
    ensures dp.path.TopOverride() == EvalType(t, action, dp.path.View(), old(dp.path.TopOverride())).ov
    decreases t, 1, 0
  {
    if action in t.handlers {
      out := Leaf(t.handlers[action](action, dp.Get()), dp);
    } else if t.defaultHandler.Some? {
      out := Leaf(t.defaultHandler.value(action, dp.Get()), dp);
    } else if t.original.None? {
      out := Outcome(Null, Some(Plain(NoSchemaTypeSet)));
    } else {
      out := ProcessType(t.original.value, action, dp);
    }
  }

  /** The `i`-th element of an allOf, anyOf or oneOf runs on the same cursor. */
  method RunMember(t: SchemaType, action: Action, dp: DataPointer, i: nat) returns (o: Outcome<Path>)
    requires (t.AllOf? || t.AnyOf? || t.OneOf?) && TypeNilFree(t) && i < |t.elements|
    modifies dp.path.Top()
    ensures Conforms(o, MemberRun(t, action, dp.path.View(), old(dp.path.TopOverride()), i).out)
    ensures dp.path.TopOverride() == MemberRun(t, action, dp.path.View(), old(dp.path.TopOverride()), i).ov
    decreases t, 0, 0
  {
    o := ProcessNode(t.elements[i].value, action, dp);
  }

  /**
   * Go `AllOfType.Process`: every element runs on the same cursor; a failure
   * is collected into the aggregate; with chaining on for the action, a
   * success is written as the top frame's override (an error on an empty
   * path, collected too).
   */
  method ProcessAllOf(t: SchemaType, action: Action, dp: DataPointer) returns (out: Outcome<Path>)
    requires t.AllOf? && TypeNilFree(t)
    modifies dp.path.Top()
    ensures Conforms(out, AllOfResult(AllOfUpTo(t, action, dp.path.View(), old(dp.path.TopOverride()), |t.elements|)).out)
    ensures dp.path.TopOverride() == AllOfUpTo(t, action, dp.path.View(), old(dp.path.TopOverride()), |t.elements|).ov
    decreases t, 1, 0
  {
    ghost var trail, ov0 := dp.path.View(), dp.path.TopOverride();
    var processedData := Null;
    var schemaError: Option<SchemaError<Path>> := None;
    var i := 0;
    ghost var s := AllOfUpTo(t, action, trail, ov0, 0);
    while i < |t.elements|
      invariant 0 <= i <= |t.elements|
      invariant s == AllOfUpTo(t, action, trail, ov0, i)
      invariant processedData == s.data && AccConforms(schemaError, s.acc)
      invariant dp.path.TopOverride() == s.ov
    {
      processedData, schemaError := AllOfMember(t, action, dp, i, s, schemaError);
      AllOfNext(t, action, trail, ov0, i);
      i, s := i + 1, AllOfUpTo(t, action, trail, ov0, i + 1);
    }
    if schemaError.Some? {
      out := Outcome(Null, Some(Aggregate(schemaError.value)));
    } else {
      out := Outcome(processedData, None);
    }
  }

  /**
   * One allOf element: it runs on the cursor; its failure is collected; with
   * chaining on, its success becomes the top frame's override.
   */
  method AllOfMember(t: SchemaType, action: Action, dp: DataPointer, i: nat, ghost s: AllOfState,
                     schemaError: Option<SchemaError<Path>>)
    returns (processedData: Data, schemaError': Option<SchemaError<Path>>)
    requires t.AllOf? && TypeNilFree(t) && i < |t.elements|
    requires AccConforms(schemaError, s.acc) && dp.path.TopOverride() == s.ov
    modifies dp.path.Top()
    ensures var s' := AllOfStep(t.chain, action, dp.path.View(), s, MemberRun(t, action, dp.path.View(), s.ov, i));
      processedData == s'.data && AccConforms(schemaError', s'.acc) && dp.path.TopOverride() == s'.ov
    decreases t, 0, 1
  {
    ghost var trail := dp.path.View();
    ghost var r := MemberRun(t, action, trail, s.ov, i);
    var o := RunMember(t, action, dp, i);
    processedData, schemaError' := o.data, schemaError;
    if o.err.Some? {
      CollectConforms(schemaError, s.acc, dp.path, trail, o.err.value, r.out.err.value);
      schemaError' := Some(Collect(schemaError, dp.path, o.err.value));
    } else if t.chain.GetAction(action) {
      var e := dp.path.SetOverride(processedData);
      if e.Some? {
        CollectConforms(schemaError, s.acc, dp.path, trail, Plain(e.value), Plain(EmptyPath));
        schemaError' := Some(Collect(schemaError, dp.path, Plain(e.value)));
      }
    }
  }

  /**
   * Go `AnyOfType.Process`: the first success is returned at once. The first
   * failure's aggregate is kept; each later failure is returned merged with
   * it, the merge itself not being kept.
   */
  method ProcessAnyOf(t: SchemaType, action: Action, dp: DataPointer) returns (out: Outcome<Path>)
    requires t.AnyOf? && TypeNilFree(t)
    modifies dp.path.Top()
    ensures Conforms(out, AnyOfResult(AnyOfUpTo(t, action, dp.path.View(), old(dp.path.TopOverride()), |t.elements|)).out)
    ensures dp.path.TopOverride() == AnyOfUpTo(t, action, dp.path.View(), old(dp.path.TopOverride()), |t.elements|).ov
    decreases t, 1, 0
  {
    ghost var trail, ov0 := dp.path.View(), dp.path.TopOverride();
    var schemaError: Option<SchemaError<Path>> := None;
    var err: Option<Error<Path>> := None;
    var i := 0;
    ghost var s := AnyOfUpTo(t, action, trail, ov0, 0);
    while i < |t.elements|
      invariant 0 <= i <= |t.elements|
      invariant s == AnyOfUpTo(t, action, trail, ov0, i)
      invariant !s.done && AccConforms(schemaError, s.first) && ErrConforms(err, s.err)
      invariant dp.path.TopOverride() == s.ov
    {
      var data;
      var done;
      done, data, schemaError, err := AnyOfMember(t, action, dp, i, s, schemaError, err);
      AnyOfNext(t, action, trail, ov0, i);
      s := AnyOfUpTo(t, action, trail, ov0, i + 1);
      if done {
        AnyOfStays(t, action, trail, ov0, i + 1, |t.elements|);
        out := Outcome(data, None);
        return;
      }
      i := i + 1;
    }
    out := Outcome(Null, err);
  }

  /**
   * One anyOf element: it runs on the cursor; a success ends the loop, a
   * failure is kept as the first aggregate or returned merged with it.
   */
  method AnyOfMember(t: SchemaType, action: Action, dp: DataPointer, i: nat, ghost s: AnyOfState,
                     schemaError: Option<SchemaError<Path>>, err: Option<Error<Path>>)
    returns (done: bool, data: Data, schemaError': Option<SchemaError<Path>>, err': Option<Error<Path>>)
    requires t.AnyOf? && TypeNilFree(t) && i < |t.elements|
    requires !s.done && AccConforms(schemaError, s.first) && dp.path.TopOverride() == s.ov
    modifies dp.path.Top()
    ensures var s' := AnyOfStep(dp.path.View(), s, MemberRun(t, action, dp.path.View(), s.ov, i));
      done == s'.done && dp.path.TopOverride() == s'.ov &&
      (done ==> data == s'.data) &&
      (!done ==> AccConforms(schemaError', s'.first) && ErrConforms(err', s'.err))
    decreases t, 0, 1
  {
    ghost var r := MemberRun(t, action, dp.path.View(), s.ov, i);
    var o := RunMember(t, action, dp, i);
    done, data, schemaError', err' := o.err.None?, o.data, schemaError, err;
    if o.err.Some? {
      AnyOfFailure(dp.path, dp.path.View(), schemaError, s, o.err.value, r);
      if schemaError.Some? {
        err' := Some(Aggregate(schemaError.value.MergeWithCast(dp.path, o.err.value)));
      } else {
        schemaError' := Some(NewSchemaWithCasting(dp.path, o.err.value));
        err' := o.err;
      }
    }
  }

  /** A failing anyOf element: the engine's kept aggregate and error agree with the specified ones. */
  lemma AnyOfFailure(p: Path, trail: Trail, acc: Option<SchemaError<Path>>, s: AnyOfState, me: Error<Path>, r: Run)
    requires p.View() == trail && !s.done && AccConforms(acc, s.first)
    requires r.out.err.Some? && ErrConforms(Some(me), r.out.err)
    ensures AccConforms(Some(if acc.Some? then acc.value else NewSchemaWithCasting(p, me)), AnyOfStep(trail, s, r).first)
    ensures ErrConforms(if acc.Some? then Some(Aggregate(acc.value.MergeWithCast(p, me))) else Some(me), AnyOfStep(trail, s, r).err)
  {
    if acc.Some? {
      MergeConforms(acc.value, s.first.value, p, trail, me, r.out.err.value);
      AggregateConforms(acc.value.MergeWithCast(p, me), s.first.value.MergeWithCast(trail, r.out.err.value));
    } else {
      CastConforms(p, trail, me, r.out.err.value);
    }
  }

  /**
   * Go `OneOfType.Process`: a second success returns at once with a
   * "multiple types match" error; no success gives "no type match". The
   * failures are collected as in allOf, but that aggregate is never
   * returned.
   */
  method ProcessOneOf(t: SchemaType, action: Action, dp: DataPointer) returns (out: Outcome<Path>)
    requires t.OneOf? && TypeNilFree(t)
    modifies dp.path.Top()
    ensures Conforms(out, OneOfResult(dp.path.View(), OneOfUpTo(t, action, dp.path.View(), old(dp.path.TopOverride()), |t.elements|)).out)
    ensures dp.path.TopOverride() == OneOfUpTo(t, action, dp.path.View(), old(dp.path.TopOverride()), |t.elements|).ov
    decreases t, 1, 0
  {
    ghost var trail, ov0 := dp.path.View(), dp.path.TopOverride();
    var schemaError: Option<SchemaError<Path>> := None;
    var processed := false;
    var processedData := Null;
    var i := 0;
    ghost var s := OneOfUpTo(t, action, trail, ov0, 0);
    while i < |t.elements|
      invariant 0 <= i <= |t.elements|
      invariant s == OneOfUpTo(t, action, trail, ov0, i)
      invariant !s.ambiguous && processed == s.processed && processedData == s.data
      invariant dp.path.TopOverride() == s.ov
    {
      var ambiguous;
      ambiguous, processed, processedData, schemaError := OneOfMember(t, action, dp, i, s, processed, processedData, schemaError);
      OneOfNext(t, action, trail, ov0, i);
      s := OneOfUpTo(t, action, trail, ov0, i + 1);
      if ambiguous {
        OneOfStays(t, action, trail, ov0, i + 1, |t.elements|);
        out := FailAt(dp, MultipleTypesMatch);
        return;
      }
      i := i + 1;
    }
    if !processed {
      out := FailAt(dp, NoTypeMatch);
    } else {
      out := Outcome(processedData, None);
    }
  }

  /**
   * One oneOf element: it runs on the cursor; a failure is collected into an
   * aggregate nobody reads, a success is kept, a second success ends the loop.
   */
  method OneOfMember(t: SchemaType, action: Action, dp: DataPointer, i: nat, ghost s: OneOfState,
                     processed: bool, processedData: Data, schemaError: Option<SchemaError<Path>>)
    returns (ambiguous: bool, processed': bool, processedData': Data, schemaError': Option<SchemaError<Path>>)
    requires t.OneOf? && TypeNilFree(t) && i < |t.elements|
    requires !s.ambiguous && processed == s.processed && processedData == s.data && dp.path.TopOverride() == s.ov
    modifies dp.path.Top()
    ensures var s' := OneOfStep(s, MemberRun(t, action, dp.path.View(), s.ov, i));
      ambiguous == s'.ambiguous && dp.path.TopOverride() == s'.ov &&
      (!ambiguous ==> processed' == s'.processed && processedData' == s'.data)
    decreases t, 0, 1
  {
    var o := RunMember(t, action, dp, i);
    ambiguous, processed', processedData', schemaError' := false, processed, processedData, schemaError;
    if o.err.Some? {
      schemaError' := Some(Collect(schemaError, dp.path, o.err.value));
    } else if processed {
      ambiguous := true;
    } else {
      processedData', processed' := o.data, true;
    }
  }

  /**
   * A child of a list or an object: a fresh frame keyed `key` over `value`
   * is pushed onto the cursor and the child's schema parses or serializes it.
   */
  method ProcessChild(n: Node, action: Action, dp: DataPointer, key: string, value: Data) returns (o: Outcome<Path>)
    requires NilFree(n) && Processes(action)
    ensures Conforms(o, Eval(n, action, dp.path.View() + [Step(key, value)], None).out)
    decreases n, 2, 0
  {
    var ptr := dp.Push(key, value);
    if action == SERIALIZE {
      o := SerializeNode(n, ptr);
    } else {
      o := ParseNode(n, ptr);
    }
  }

  /** Visiting a remaining key keeps the visited keys distinct and the remaining ones the rest. */
  lemma VisitOnce(visited: seq<string>, key: string, keys: set<string>, remaining: set<string>)
    requires key in remaining && remaining <= keys
    requires forall k :: k in visited <==> k in keys && k !in remaining
    requires Distinct(visited)
    ensures forall k :: k in visited + [key] <==> k in keys && k !in remaining - {key}
    ensures Distinct(visited + [key])
  {
  }

  /** Visiting every key once, in any order, gives the sorted visit's entries, rearranged. */
  lemma VisitOrder<E>(f: string -> seq<E>, visited: seq<string>, keys: set<string>)
    requires Distinct(visited) && forall k :: k in visited <==> k in keys
    ensures multiset(ConcatMap(f, visited)) == multiset(ConcatMap(f, Text.SortedList(keys)))
  {
    var sorted := Text.SortedList(keys);
    forall i, j | 0 <= i < j < |sorted| ensures sorted[i] != sorted[j] {
      Text.LessIrreflexive(sorted[i]);
    }
    SameSetSameMultiset(visited, sorted);
    ConcatMapPermutation(f, visited, sorted);
  }

  /**
   * Go `ListType.Process`: the item type must be set and the value a list
   * within the length bounds; then, for Parse and Serialize, each element
   * is processed on a new frame keyed `[k]` and its output appended, its
   * failure merged into the aggregate.
   */
  method ProcessList(t: SchemaType, action: Action, dp: DataPointer) returns (out: Outcome<Path>)
    requires t.List? && TypeNilFree(t)
    ensures Conforms(out, EvalList(t, action, dp.path.View(), CurrentValue(dp.path.View(), dp.path.TopOverride())))
    decreases t, 1, 0
  {
    if t.item.None? {
      out := FailAt(dp, ListItemSchemaNil(action));
      return;
    }
    var v := dp.Get();
    if !v.Seq? {
      out := FailAt(dp, NotAList(action));
      return;
    }
    var d := v.items;
    var (m, ok) := NumberGet(t.minLen);
    if ok && m > |d| {
      out := FailAt(dp, TooShort(|d|, m));
      return;
    }
    var (n, ok') := NumberGet(t.maxLen);
    if ok' && n < |d| {
      out := FailAt(dp, TooLong(|d|, n));
      return;
    }
    var processedSlice, schemaError := ListElements(t, action, dp, d);
    if |schemaError.errors| > 0 {
      out := Outcome(Null, Some(Aggregate(schemaError)));
    } else {
      out := Outcome(Seq(processedSlice), None);
    }
  }

  /** The element loop of a list: each element in order. */
  method ListElements(t: SchemaType, action: Action, dp: DataPointer, d: seq<Data>)
    returns (processedSlice: seq<Data>, schemaError: SchemaError<Path>)
    requires t.List? && t.item.Some? && TypeNilFree(t)
    ensures processedSlice == ListUpTo(t, action, dp.path.View(), d, |d|).out
    ensures multiset(EraseEntries(schemaError.errors)) == multiset(ListUpTo(t, action, dp.path.View(), d, |d|).agg.errors)
    decreases t, 0, 2
  {
    ghost var trail := dp.path.View();
    processedSlice, schemaError := [], NewSchemaError<Path>();
    var k := 0;
    while k < |d|
      invariant 0 <= k <= |d|
      invariant processedSlice == ListUpTo(t, action, trail, d, k).out
      invariant multiset(EraseEntries(schemaError.errors)) == multiset(ListUpTo(t, action, trail, d, k).agg.errors)
    {
      processedSlice, schemaError := ListElement(t, action, dp, d, k, ListUpTo(t, action, trail, d, k), processedSlice, schemaError);
      ListNext(t, action, trail, d, k);
      k := k + 1;
    }
  }

  /**
   * One list element: for Parse and Serialize it is processed on a new frame
   * keyed `[k]`, its output appended and its failure merged.
   */
  method ListElement(t: SchemaType, action: Action, dp: DataPointer, d: seq<Data>, k: nat, ghost s: ListState,
                     processedSlice: seq<Data>, schemaError: SchemaError<Path>)
    returns (processedSlice': seq<Data>, schemaError': SchemaError<Path>)
    requires t.List? && t.item.Some? && TypeNilFree(t) && k < |d|
    requires processedSlice == s.out && multiset(EraseEntries(schemaError.errors)) == multiset(s.agg.errors)
    ensures var s' := ListStep(action, dp.path.View(), s, ElementRun(t, action, dp.path.View(), d, k));
      processedSlice' == s'.out && multiset(EraseEntries(schemaError'.errors)) == multiset(s'.agg.errors)
    decreases t, 0, 1
  {
    ghost var trail := dp.path.View();
    processedSlice', schemaError' := processedSlice, schemaError;
    var err: Option<Error<Path>> := None;
    if Processes(action) {
      ghost var r := ElementRun(t, action, trail, d, k);
      var o := ProcessChild(t.item.value, action, dp, ElementKey(k), d[k]);
      processedSlice' := processedSlice + [o.data];
      err := o.err;
      if err.Some? {
        MergeConforms(schemaError, s.agg, dp.path, trail, err.value, r.out.err.value);
        schemaError' := schemaError.MergeWithCast(dp.path, err.value);
      }
    }
  }

  /**
   * Go `ObjectType.Process`: the value must be a map holding every required
   * key; then each of its keys, in whatever order the map yields them,
   * either has no property (one entry) or, for Parse and Serialize, is
   * processed by its property on a new frame keyed by it.
   */
  method ProcessObject(t: SchemaType, action: Action, dp: DataPointer) returns (out: Outcome<Path>)
    requires t.Object? && TypeNilFree(t)
    ensures Conforms(out, EvalObject(t, action, dp.path.View(), CurrentValue(dp.path.View(), dp.path.TopOverride())))
    decreases t, 1, 0
  {
    ghost var trail := dp.path.View();
    var v := dp.Get();
    if !v.Map? {
      out := FailAt(dp, NotAnObject);
      return;
    }
    var d := v.entries;
    if |t.required| > 0 {
      var diff := ListMapDiff(t.required, d);
      if |diff| > 0 {
        out := FailAt(dp, MissingRequired(diff));
        return;
      }
    }
    var processedObject, schemaError := ObjectKeys(t, action, dp, d);
    if |schemaError.errors| > 0 {
      out := Outcome(Null, Some(Aggregate(schemaError)));
    } else {
      out := Outcome(Map(processedObject), None);
    }
  }

  /**
   * The state of the key loop of an object: the keys visited so far, once
   * each, are the input's keys not remaining; the aggregate holds their
   * entries and the output their properties' results.
   */
  ghost predicate KeysVisited(t: SchemaType, action: Action, trail: Trail, d: map<string, Data>,
                              remaining: set<string>, visited: seq<string>,
                              processedObject: map<string, Data>, errors: seq<Entry<Path>>)
    requires t.Object? && TypeNilFree(t)
  {
    remaining <= d.Keys &&
    (forall k :: k in visited <==> k in d && k !in remaining) &&
    Distinct(visited) &&
    multiset(EraseEntries(errors)) == multiset(ObjectEntries(t, action, trail, d, visited)) &&
    processedObject == ObjectOut(t, action, trail, d, d.Keys - remaining)
  }

  /** The key loop of an object: every input key once, in whatever order the map yields them. */
  method ObjectKeys(t: SchemaType, action: Action, dp: DataPointer, d: map<string, Data>)
    returns (processedObject: map<string, Data>, schemaError: SchemaError<Path>)
    requires t.Object? && TypeNilFree(t)
    ensures processedObject == ObjectOut(t, action, dp.path.View(), d, d.Keys)
    ensures multiset(EraseEntries(schemaError.errors)) == multiset(ObjectEntries(t, action, dp.path.View(), d, Text.SortedList(d.Keys)))
    decreases t, 0, 2
  {
    ghost var trail := dp.path.View();
    schemaError := NewSchemaError<Path>();
    processedObject := map[];
    var remaining := d.Keys;
    ghost var visited: seq<string> := [];
    KeysStart(t, action, trail, d);
    while remaining != {}
      invariant KeysVisited(t, action, trail, d, remaining, visited, processedObject, schemaError.errors)
      decreases remaining
    {
      var key :| key in remaining;
      var processedObject', schemaError' := ObjectKey(t, action, dp, d, key, processedObject, schemaError);
      KeysNext(t, action, trail, d, key, remaining, visited, processedObject, schemaError.errors, processedObject', schemaError'.errors);
      processedObject, schemaError := processedObject', schemaError';
      remaining := remaining - {key};
      visited := visited + [key];
    }
    KeysDone(t, action, trail, d, visited, processedObject, schemaError.errors);
  }

  lemma KeysStart(t: SchemaType, action: Action, trail: Trail, d: map<string, Data>)
    requires t.Object? && TypeNilFree(t)
    ensures KeysVisited(t, action, trail, d, d.Keys, [], map[], NewSchemaError<Path>().errors)
  {
    assert d.Keys - d.Keys == {};
  }

  /** Once no key remains, the visit gave the sorted visit's entries, rearranged, and the whole output. */
  lemma KeysDone(t: SchemaType, action: Action, trail: Trail, d: map<string, Data>,
                 visited: seq<string>, processedObject: map<string, Data>, errors: seq<Entry<Path>>)
    requires t.Object? && TypeNilFree(t)
    requires KeysVisited(t, action, trail, d, {}, visited, processedObject, errors)
    ensures processedObject == ObjectOut(t, action, trail, d, d.Keys)
    ensures multiset(EraseEntries(errors)) == multiset(ObjectEntries(t, action, trail, d, Text.SortedList(d.Keys)))
  {
    VisitOrder(KeyEntriesOf(t, action, trail, d), visited, d.Keys);
    assert d.Keys - {} == d.Keys;
  }

  /**
   * One input key of an object: a key with no property adds an "unknown
   * key" entry; otherwise, for Parse and Serialize, its property processes
   * the key's value on a new frame keyed by it.
   */
  method ObjectKey(t: SchemaType, action: Action, dp: DataPointer, d: map<string, Data>, key: string,
                   processedObject: map<string, Data>, schemaError: SchemaError<Path>)
    returns (processedObject': map<string, Data>, schemaError': SchemaError<Path>)
    requires t.Object? && TypeNilFree(t) && key in d
    ensures processedObject' ==
      if key in t.properties && Processes(action) then processedObject[key := KeyRun(t, action, dp.path.View(), d, key).out.data]
      else processedObject
    ensures multiset(EraseEntries(schemaError'.errors)) ==
      multiset(EraseEntries(schemaError.errors)) + multiset(KeyEntries(t, action, dp.path.View(), d, key))
    decreases t, 0, 1
  {
    ghost var trail := dp.path.View();
    processedObject', schemaError' := processedObject, schemaError;
    var err: Option<Error<Path>> := None;
    if key !in t.properties {
      assert EraseEntries([Entry(dp.path, UnknownKey(key))]) == KeyEntries(t, action, trail, d, key);
      EraseAppend(schemaError.errors, [Entry(dp.path, UnknownKey(key))]);
      schemaError' := schemaError.Append(dp.path, UnknownKey(key));
    } else if Processes(action) {
      ghost var r := KeyRun(t, action, trail, d, key);
      var o := ProcessChild(t.properties[key].value, action, dp, key, d[key]);
      processedObject' := processedObject[key := o.data];
      err := o.err;
      if err.Some? {
        CastConforms(dp.path, trail, err.value, r.out.err.value);
        EraseAppend(schemaError.errors, NewSchemaWithCasting(dp.path, err.value).errors);
        schemaError' := schemaError.MergeWithCast(dp.path, err.value);
      }
    }
  }

  /** Visiting a remaining key, with the effect `ObjectKey` promises, keeps the loop's state. */
  lemma KeysNext(t: SchemaType, action: Action, trail: Trail, d: map<string, Data>, key: string,
                 remaining: set<string>, visited: seq<string>,
                 processedObject: map<string, Data>, errors: seq<Entry<Path>>,
                 processedObject': map<string, Data>, errors': seq<Entry<Path>>)
    requires t.Object? && TypeNilFree(t) && key in remaining
    requires KeysVisited(t, action, trail, d, remaining, visited, processedObject, errors)
    requires processedObject' ==
      if key in t.properties && Processes(action) then processedObject[key := KeyRun(t, action, trail, d, key).out.data]
      else processedObject
    requires multiset(EraseEntries(errors')) == multiset(EraseEntries(errors)) + multiset(KeyEntries(t, action, trail, d, key))
    ensures KeysVisited(t, action, trail, d, remaining - {key}, visited + [key], processedObject', errors')
  {
    ghost var done := d.Keys - remaining;
    assert d.Keys - (remaining - {key}) == done + {key};
    VisitOnce(visited, key, d.Keys, remaining);
    ObjectOutStep(t, action, trail, d, done, key);
    KeyEntriesAt(t, action, trail, d, key);
    assert (visited + [key])[..|visited|] == visited;
  }


  // ---------------------------------------------------------------------
  // Entry points

  /** Go `Process(schema, action, data)`: the type runs on a fresh cursor over `data`. */
  method Process(t: SchemaType, action: Action, data: Data) returns (out: Outcome<Path>)
    requires TypeNilFree(t)
    ensures Conforms(out, EvalType(t, action, StartTrail(data), None).out)
  {
    var dp := NewDataPointer(data);
    assert dp.path.Top() <= set e | e in dp.path.elements;
    out := ProcessType(t, action, dp);
  }

  /** Go `Parse(schema, data)`. */
  method Parse(t: SchemaType, data: Data) returns (out: Outcome<Path>)
    requires TypeNilFree(t)
    ensures Conforms(out, EvalType(t, PARSE, StartTrail(data), None).out)
  {
    out := Process(t, PARSE, data);
  }

  /** Go `Serialize(schema, data)`. */
  method Serialize(t: SchemaType, data: Data) returns (out: Outcome<Path>)
    requires TypeNilFree(t)
    ensures Conforms(out, EvalType(t, SERIALIZE, StartTrail(data), None).out)
  {
    out := Process(t, SERIALIZE, data);
  }
}
