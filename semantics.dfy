// What processing means, stated on values: the outcome a schema gives for an
// action, from the trail of frames it runs on and the override of the top
// frame, and the override it leaves on that frame. The engine's methods,
// which work on shared frames, are proved to compute exactly this.
module Semantics {
  import opened Wrappers
  import opened Values
  import opened SchemaErrors
  import opened Paths
  import opened Properties
  import opened Schemas
  import opened Strconv
  import opened Utils
  import opened Sequences
  import Text

  /** What a run returns, and the top frame's override afterwards. */
  datatype Run = Run(out: Outcome<Trail>, ov: Option<Data>)

  /** A nil value with a one-entry aggregate at `trail`. */
  function Fail(trail: Trail, c: Cause): Outcome<Trail>
  {
    Outcome(Null, Some(Aggregate(NewSchemaErrorWithError(trail, c))))
  }

  /** The nil value with the error returned by a node without a type. */
  function NoType(): Outcome<Trail>
  {
    Outcome(Null, Some(Plain(NoSchemaTypeSet)))
  }

  /** The actions the list and object types hand on to their children. */
  predicate Processes(action: Action)
  {
    action == PARSE || action == SERIALIZE
  }

  /** The key of the frame a list element is processed on: `[k]`. */
  function ElementKey(k: nat): string
  {
    "[" + NatText(k) + "]"
  }

  // ---------------------------------------------------------------------
  // Nodes and types

  /** Go `SchemaNode.Process`. */
  ghost function Eval(n: Node, action: Action, trail: Trail, ov: Option<Data>): Run
    requires NilFree(n)
    decreases n, 0, 0
  {
    match n.typ
    case None => Run(NoType(), ov)
    case Some(t) => EvalType(t, action, trail, ov)
  }

  /** The `Process` method of each schema type. */
  ghost function EvalType(t: SchemaType, action: Action, trail: Trail, ov: Option<Data>): Run
    requires TypeNilFree(t)
    decreases t, 2, 0
  {
    var v := CurrentValue(trail, ov);
    match t
    case AllOf(elements, _) => AllOfResult(AllOfUpTo(t, action, trail, ov, |elements|))
    case AnyOf(elements) => AnyOfResult(AnyOfUpTo(t, action, trail, ov, |elements|))
    case OneOf(elements) => OneOfResult(trail, OneOfUpTo(t, action, trail, ov, |elements|))
    case List(_, _, _) => Run(EvalList(t, action, trail, v), ov)
    case Object(_, _) => Run(EvalObject(t, action, trail, v), ov)
    case StringLeaf(st) => Run(FromLeaf(st.Process(action, v), trail), ov)
    case IntLeaf(it) => Run(FromLeaf(it.Process(action, v), trail), ov)
    case BoolLeaf(bt) => Run(FromLeaf(bt.Process(action, v), trail), ov)
    case BytesLeaf(yt) => Run(FromLeaf(yt.Process(action, v), trail), ov)
    case Decorated(original, handlers, defaultHandler) =>
      if action in handlers then Run(FromLeaf(handlers[action](action, v), trail), ov)
      else if defaultHandler.Some? then Run(FromLeaf(defaultHandler.value(action, v), trail), ov)
      else if original.None? then Run(NoType(), ov)
      else EvalType(original.value, action, trail, ov)
    case Wrapped(node) => Eval(node, action, trail, ov)
    case Foreign(_, _, process, _) => Run(FromLeaf(process(action, v), trail), ov)
  }

  // Each composite type's case of `EvalType`, one at a time.

  lemma EvalAllOf(t: SchemaType, action: Action, trail: Trail, ov: Option<Data>)
    requires t.AllOf? && TypeNilFree(t)
    ensures EvalType(t, action, trail, ov) == AllOfResult(AllOfUpTo(t, action, trail, ov, |t.elements|))
  {
  }

  lemma EvalAnyOf(t: SchemaType, action: Action, trail: Trail, ov: Option<Data>)
    requires t.AnyOf? && TypeNilFree(t)
    ensures EvalType(t, action, trail, ov) == AnyOfResult(AnyOfUpTo(t, action, trail, ov, |t.elements|))
  {
  }

  lemma EvalOneOf(t: SchemaType, action: Action, trail: Trail, ov: Option<Data>)
    requires t.OneOf? && TypeNilFree(t)
    ensures EvalType(t, action, trail, ov) == OneOfResult(trail, OneOfUpTo(t, action, trail, ov, |t.elements|))
  {
  }

  lemma EvalListType(t: SchemaType, action: Action, trail: Trail, ov: Option<Data>)
    requires t.List? && TypeNilFree(t)
    ensures EvalType(t, action, trail, ov) == Run(EvalList(t, action, trail, CurrentValue(trail, ov)), ov)
  {
  }

  lemma EvalObjectType(t: SchemaType, action: Action, trail: Trail, ov: Option<Data>)
    requires t.Object? && TypeNilFree(t)
    ensures EvalType(t, action, trail, ov) == Run(EvalObject(t, action, trail, CurrentValue(trail, ov)), ov)
  {
  }

  /** The run of the `i`-th element of an allOf, anyOf or oneOf, on the same frame. */
  ghost function MemberRun(t: SchemaType, action: Action, trail: Trail, ov: Option<Data>, i: nat): Run
    requires (t.AllOf? || t.AnyOf? || t.OneOf?) && TypeNilFree(t) && i < |t.elements|
    decreases t, 0, 0
  {
    Eval(t.elements[i].value, action, trail, ov)
  }

  // ---------------------------------------------------------------------
  // allOf: every element runs; with chaining on, each success becomes the
  // frame's override, so the next element reads it

  datatype AllOfState = AllOfState(data: Data, acc: Option<SchemaError<Trail>>, ov: Option<Data>)

  function AllOfStep(chain: ActionFlags, action: Action, trail: Trail, s: AllOfState, r: Run): AllOfState
  {
    if r.out.err.Some? then AllOfState(r.out.data, Some(Collect(s.acc, trail, r.out.err.value)), r.ov)
    else if !chain.GetAction(action) then AllOfState(r.out.data, s.acc, r.ov)
    else if |trail| == 0 then AllOfState(r.out.data, Some(Collect(s.acc, trail, Plain(EmptyPath))), r.ov)
    else AllOfState(r.out.data, s.acc, Some(r.out.data))
  }

  /** The state of the allOf loop after its first `i` elements. */
  ghost function AllOfUpTo(t: SchemaType, action: Action, trail: Trail, ov: Option<Data>, i: nat): AllOfState
    requires t.AllOf? && TypeNilFree(t) && i <= |t.elements|
    decreases t, 0, i + 1
  {
    if i == 0 then AllOfState(Null, None, ov)
    else
      var s := AllOfUpTo(t, action, trail, ov, i - 1);
      AllOfStep(t.chain, action, trail, s, MemberRun(t, action, trail, s.ov, i - 1))
  }

  lemma AllOfNext(t: SchemaType, action: Action, trail: Trail, ov: Option<Data>, i: nat)
    requires t.AllOf? && TypeNilFree(t) && i < |t.elements|
    ensures AllOfUpTo(t, action, trail, ov, i + 1) ==
            AllOfStep(t.chain, action, trail, AllOfUpTo(t, action, trail, ov, i), MemberRun(t, action, trail, AllOfUpTo(t, action, trail, ov, i).ov, i))
  {
  }

  function AllOfResult(s: AllOfState): Run
  {
    if s.acc.Some? then Run(Outcome(Null, Some(Aggregate(s.acc.value))), s.ov)
    else Run(Outcome(s.data, None), s.ov)
  }

  // ---------------------------------------------------------------------
  // anyOf: stops at the first success. After the first failure the
  // aggregate of that failure is kept aside and each later failure returns
  // it merged with that later failure only.

  datatype AnyOfState = AnyOfState(done: bool, data: Data, first: Option<SchemaError<Trail>>, err: Option<Error<Trail>>, ov: Option<Data>)

  function AnyOfStep(trail: Trail, s: AnyOfState, r: Run): AnyOfState
  {
    if s.done then s
    else if r.out.err.None? then AnyOfState(true, r.out.data, s.first, s.err, r.ov)
    else if s.first.Some? then AnyOfState(false, s.data, s.first, Some(Aggregate(s.first.value.MergeWithCast(trail, r.out.err.value))), r.ov)
    else AnyOfState(false, s.data, Some(NewSchemaWithCasting(trail, r.out.err.value)), r.out.err, r.ov)
  }

  ghost function AnyOfUpTo(t: SchemaType, action: Action, trail: Trail, ov: Option<Data>, i: nat): AnyOfState
    requires t.AnyOf? && TypeNilFree(t) && i <= |t.elements|
    decreases t, 0, i + 1
  {
    if i == 0 then AnyOfState(false, Null, None, None, ov)
    else
      var s := AnyOfUpTo(t, action, trail, ov, i - 1);
      AnyOfStep(trail, s, MemberRun(t, action, trail, s.ov, i - 1))
  }

  lemma AnyOfNext(t: SchemaType, action: Action, trail: Trail, ov: Option<Data>, i: nat)
    requires t.AnyOf? && TypeNilFree(t) && i < |t.elements|
    ensures AnyOfUpTo(t, action, trail, ov, i + 1) ==
            AnyOfStep(trail, AnyOfUpTo(t, action, trail, ov, i), MemberRun(t, action, trail, AnyOfUpTo(t, action, trail, ov, i).ov, i))
  {
  }

  function AnyOfResult(s: AnyOfState): Run
  {
    if s.done then Run(Outcome(s.data, None), s.ov) else Run(Outcome(Null, s.err), s.ov)
  }

  /** Once an element has succeeded, the later elements change nothing. */
  lemma {:induction false} AnyOfStays(t: SchemaType, action: Action, trail: Trail, ov: Option<Data>, i: nat, j: nat)
    requires t.AnyOf? && TypeNilFree(t) && i <= j <= |t.elements|
    requires AnyOfUpTo(t, action, trail, ov, i).done
    ensures AnyOfUpTo(t, action, trail, ov, j) == AnyOfUpTo(t, action, trail, ov, i)
    decreases j - i
  {
    if j > i {
      AnyOfStays(t, action, trail, ov, i, j - 1);
    }
  }

  // ---------------------------------------------------------------------
  // oneOf: stops at the second success

  datatype OneOfState = OneOfState(processed: bool, data: Data, ambiguous: bool, ov: Option<Data>)

  function OneOfStep(s: OneOfState, r: Run): OneOfState
  {
    if s.ambiguous then s
    else if r.out.err.Some? then s.(ov := r.ov)
    else if s.processed then OneOfState(true, s.data, true, r.ov)
    else OneOfState(true, r.out.data, false, r.ov)
  }

  ghost function OneOfUpTo(t: SchemaType, action: Action, trail: Trail, ov: Option<Data>, i: nat): OneOfState
    requires t.OneOf? && TypeNilFree(t) && i <= |t.elements|
    decreases t, 0, i + 1
  {
    if i == 0 then OneOfState(false, Null, false, ov)
    else
      var s := OneOfUpTo(t, action, trail, ov, i - 1);
      OneOfStep(s, MemberRun(t, action, trail, s.ov, i - 1))
  }

  lemma OneOfNext(t: SchemaType, action: Action, trail: Trail, ov: Option<Data>, i: nat)
    requires t.OneOf? && TypeNilFree(t) && i < |t.elements|
    ensures OneOfUpTo(t, action, trail, ov, i + 1) ==
            OneOfStep(OneOfUpTo(t, action, trail, ov, i), MemberRun(t, action, trail, OneOfUpTo(t, action, trail, ov, i).ov, i))
  {
  }

  function OneOfResult(trail: Trail, s: OneOfState): Run
  {
    if s.ambiguous then Run(Fail(trail, MultipleTypesMatch), s.ov)
    else if !s.processed then Run(Fail(trail, NoTypeMatch), s.ov)
    else Run(Outcome(s.data, None), s.ov)
  }

  /** Once a second element has succeeded, the later elements change nothing. */
  lemma {:induction false} OneOfStays(t: SchemaType, action: Action, trail: Trail, ov: Option<Data>, i: nat, j: nat)
    requires t.OneOf? && TypeNilFree(t) && i <= j <= |t.elements|
    requires OneOfUpTo(t, action, trail, ov, i).ambiguous
    ensures OneOfUpTo(t, action, trail, ov, j) == OneOfUpTo(t, action, trail, ov, i)
    decreases j - i
  {
    if j > i {
      OneOfStays(t, action, trail, ov, i, j - 1);
    }
  }

  // ---------------------------------------------------------------------
  // list: shape, then length, then each element on a frame of its own

  datatype ListState = ListState(out: seq<Data>, agg: SchemaError<Trail>)

  /** The run of the item type on element `k`, on a new frame keyed `[k]`. */
  ghost function ElementRun(t: SchemaType, action: Action, trail: Trail, items: seq<Data>, k: nat): Run
    requires t.List? && t.item.Some? && TypeNilFree(t) && k < |items|
    decreases t, 0, 0
  {
    Eval(t.item.value, action, trail + [Step(ElementKey(k), items[k])], None)
  }

  /** Only Parse and Serialize run the item type and collect its output. */
  function ListStep(action: Action, trail: Trail, s: ListState, r: Run): ListState
  {
    if !Processes(action) then s
    else if r.out.err.Some? then ListState(s.out + [r.out.data], s.agg.MergeWithCast(trail, r.out.err.value))
    else ListState(s.out + [r.out.data], s.agg)
  }

  ghost function ListUpTo(t: SchemaType, action: Action, trail: Trail, items: seq<Data>, i: nat): ListState
    requires t.List? && t.item.Some? && TypeNilFree(t) && i <= |items|
    decreases t, 0, i + 1
  {
    if i == 0 then ListState([], NewSchemaError())
    else ListStep(action, trail, ListUpTo(t, action, trail, items, i - 1), ElementRun(t, action, trail, items, i - 1))
  }

  lemma ListNext(t: SchemaType, action: Action, trail: Trail, items: seq<Data>, k: nat)
    requires t.List? && t.item.Some? && TypeNilFree(t) && k < |items|
    ensures ListUpTo(t, action, trail, items, k + 1) ==
            ListStep(action, trail, ListUpTo(t, action, trail, items, k), ElementRun(t, action, trail, items, k))
  {
  }

  ghost function EvalList(t: SchemaType, action: Action, trail: Trail, v: Data): Outcome<Trail>
    requires t.List? && TypeNilFree(t)
    decreases t, 1, 0
  {
    if t.item.None? then Fail(trail, ListItemSchemaNil(action))
    else if !v.Seq? then Fail(trail, NotAList(action))
    else
      match LengthError(|v.items|, t.minLen, t.maxLen)
      case Some(c) => Fail(trail, c)
      case None =>
        var s := ListUpTo(t, action, trail, v.items, |v.items|);
        if |s.agg.errors| > 0 then Outcome(Null, Some(Aggregate(s.agg))) else Outcome(Seq(s.out), None)
  }

  // ---------------------------------------------------------------------
  // object: required keys, then each input key, in whatever order the map
  // yields them. The order only changes the order of the aggregate's
  // entries; the specification visits the keys in sorted order.

  /** The run of the property `k` on the input's value for `k`, on a new frame keyed `k`. */
  ghost function KeyRun(t: SchemaType, action: Action, trail: Trail, d: map<string, Data>, k: string): Run
    requires t.Object? && TypeNilFree(t) && k in d && k in t.properties
    decreases t, 0, 0
  {
    Eval(t.properties[k].value, action, trail + [Step(k, d[k])], None)
  }

  /** The entries one input key adds to the object's aggregate. */
  ghost function KeyEntries(t: SchemaType, action: Action, trail: Trail, d: map<string, Data>, k: string): seq<Entry<Trail>>
    requires t.Object? && TypeNilFree(t) && k in d
    decreases t, 0, 1
  {
    if k !in t.properties then [Entry(trail, UnknownKey(k))]
    else if !Processes(action) then []
    else
      var r := KeyRun(t, action, trail, d, k);
      if r.out.err.Some? then NewSchemaWithCasting(trail, r.out.err.value).errors else []
  }

  /** `KeyEntries` as a function of the key; a key not in the input has none. */
  ghost function KeyEntriesOf(t: SchemaType, action: Action, trail: Trail, d: map<string, Data>): string -> seq<Entry<Trail>>
    requires t.Object? && TypeNilFree(t)
    decreases t, 0, 2
  {
    k => if k in d then KeyEntries(t, action, trail, d, k) else []
  }

  /** The entries of the keys `ks`, visited in that order. */
  ghost function ObjectEntries(t: SchemaType, action: Action, trail: Trail, d: map<string, Data>, ks: seq<string>): seq<Entry<Trail>>
    requires t.Object? && TypeNilFree(t)
    decreases t, 0, 3
  {
    ConcatMap(KeyEntriesOf(t, action, trail, d), ks)
  }

  /** The output map after visiting the keys `s`: Parse and Serialize store each property's output. */
  ghost function ObjectOut(t: SchemaType, action: Action, trail: Trail, d: map<string, Data>, s: set<string>): map<string, Data>
    requires t.Object? && TypeNilFree(t) && s <= d.Keys
    decreases t, 0, 1
  {
    if !Processes(action) then map[]
    else map k | k in s && k in t.properties :: KeyRun(t, action, trail, d, k).out.data
  }

  /** Visiting one more key stores its property's output, under Parse and Serialize. */
  lemma ObjectOutStep(t: SchemaType, action: Action, trail: Trail, d: map<string, Data>, s: set<string>, k: string)
    requires t.Object? && TypeNilFree(t) && s <= d.Keys && k in d
    ensures Processes(action) && k in t.properties ==>
              ObjectOut(t, action, trail, d, s + {k}) == ObjectOut(t, action, trail, d, s)[k := KeyRun(t, action, trail, d, k).out.data]
    ensures !Processes(action) || k !in t.properties ==>
              ObjectOut(t, action, trail, d, s + {k}) == ObjectOut(t, action, trail, d, s)
  {
  }

  ghost function EvalObject(t: SchemaType, action: Action, trail: Trail, v: Data): Outcome<Trail>
    requires t.Object? && TypeNilFree(t)
    decreases t, 1, 0
  {
    if !v.Map? then Fail(trail, NotAnObject)
    else if |t.required| > 0 && |Diff(t.required, v.entries.Keys)| > 0 then Fail(trail, MissingRequired(Diff(t.required, v.entries.Keys)))
    else
      var es := ObjectEntries(t, action, trail, v.entries, Text.SortedList(v.entries.Keys));
      if |es| > 0 then Outcome(Null, Some(Aggregate(SchemaError(es))))
      else Outcome(Map(ObjectOut(t, action, trail, v.entries, v.entries.Keys)), None)
  }

  lemma KeyEntriesAt(t: SchemaType, action: Action, trail: Trail, d: map<string, Data>, k: string)
    requires t.Object? && TypeNilFree(t) && k in d
    ensures KeyEntriesOf(t, action, trail, d)(k) == KeyEntries(t, action, trail, d, k)
  {
  }

  // ---------------------------------------------------------------------
  // Conformance of the engine's results, whose entries carry shared paths

  /** The entries with each path replaced by its trail. */
  function EraseEntries(es: seq<Entry<Path>>): (r: seq<Entry<Trail>>)
    ensures |r| == |es|
    ensures forall i :: 0 <= i < |es| ==> r[i] == Entry(es[i].path.View(), es[i].cause)
  {
    seq(|es|, i requires 0 <= i < |es| => Entry(es[i].path.View(), es[i].cause))
  }

  lemma EraseAppend(a: seq<Entry<Path>>, b: seq<Entry<Path>>)
    ensures EraseEntries(a + b) == EraseEntries(a) + EraseEntries(b)
  {
  }

  /**
   * An engine error agrees with a specified one: the same plain error, or
   * aggregates with the same entries, in any order.
   */
  predicate ErrConforms(m: Option<Error<Path>>, s: Option<Error<Trail>>)
  {
    match m
    case None => s.None?
    case Some(Plain(c)) => s == Some(Plain(c))
    case Some(Aggregate(a)) => s.Some? && s.value.Aggregate? && multiset(EraseEntries(a.errors)) == multiset(s.value.agg.errors)
  }

  /** An engine outcome agrees with a specified one: the same value and agreeing errors. */
  predicate Conforms(m: Outcome<Path>, s: Outcome<Trail>)
  {
    m.data == s.data && ErrConforms(m.err, s.err)
  }

  predicate AccConforms(m: Option<SchemaError<Path>>, s: Option<SchemaError<Trail>>)
  {
    m.None? == s.None? && (m.Some? ==> multiset(EraseEntries(m.value.errors)) == multiset(s.value.errors))
  }

  lemma CastConforms(p: Path, trail: Trail, me: Error<Path>, se: Error<Trail>)
    requires p.View() == trail && ErrConforms(Some(me), Some(se))
    ensures multiset(EraseEntries(NewSchemaWithCasting(p, me).errors)) == multiset(NewSchemaWithCasting(trail, se).errors)
  {
    if me.Plain? {
      assert EraseEntries(NewSchemaWithCasting(p, me).errors) == NewSchemaWithCasting(trail, se).errors;
    }
  }

  lemma CollectConforms(macc: Option<SchemaError<Path>>, sacc: Option<SchemaError<Trail>>, p: Path, trail: Trail, me: Error<Path>, se: Error<Trail>)
    requires AccConforms(macc, sacc) && p.View() == trail && ErrConforms(Some(me), Some(se))
    ensures AccConforms(Some(Collect(macc, p, me)), Some(Collect(sacc, trail, se)))
  {
    CastConforms(p, trail, me, se);
    var mold := if macc.Some? then macc.value.errors else [];
    EraseAppend(mold, NewSchemaWithCasting(p, me).errors);
  }

  lemma MergeConforms(ma: SchemaError<Path>, sa: SchemaError<Trail>, p: Path, trail: Trail, me: Error<Path>, se: Error<Trail>)
    requires multiset(EraseEntries(ma.errors)) == multiset(sa.errors)
    requires p.View() == trail && ErrConforms(Some(me), Some(se))
    ensures multiset(EraseEntries(ma.MergeWithCast(p, me).errors)) == multiset(sa.MergeWithCast(trail, se).errors)
  {
    CollectConforms(Some(ma), Some(sa), p, trail, me, se);
  }

  lemma AggregateConforms(ma: SchemaError<Path>, sa: SchemaError<Trail>)
    requires multiset(EraseEntries(ma.errors)) == multiset(sa.errors)
    ensures ErrConforms(Some(Aggregate(ma)), Some(Aggregate(sa)))
  {
  }

  lemma FromLeafConforms(r: LeafOutcome, p: Path, trail: Trail)
    requires p.View() == trail
    ensures Conforms(FromLeaf(r, p), FromLeaf(r, trail))
  {
    if r.err.Some? && r.err.value.AtPath? {
      assert EraseEntries(FromLeaf(r, p).err.value.agg.errors) == FromLeaf(r, trail).err.value.agg.errors;
    }
  }

  lemma FailConforms(p: Path, trail: Trail, c: Cause)
    requires p.View() == trail
    ensures Conforms(Outcome(Null, Some(Aggregate(NewSchemaErrorWithError(p, c)))), Fail(trail, c))
  {
    assert EraseEntries([Entry(p, c)]) == [Entry(trail, c)];
  }
}
