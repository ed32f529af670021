// What allOf, anyOf and oneOf promise, proved about their specification in
// `Semantics` (which the engine's methods are proved to follow). Each
// element runs on the same frame, so the run of element `i` is taken on the
// override the earlier elements left.
module CombinatorLaws {
  import opened Wrappers
  import opened Values
  import opened SchemaErrors
  import opened Paths
  import opened Properties
  import opened Schemas
  import opened Semantics
  import opened DataPointers
  import opened StringTypes
  import opened IntTypes
  import opened Strconv
  import opened Text

  // ---------------------------------------------------------------------
  // allOf

  /** The run of allOf element `i`, on the override the earlier elements left. */
  ghost function AllOfRun(t: SchemaType, action: Action, trail: Trail, ov: Option<Data>, i: nat): Run
    requires t.AllOf? && TypeNilFree(t) && i < |t.elements|
  {
    MemberRun(t, action, trail, AllOfUpTo(t, action, trail, ov, i).ov, i)
  }

  /** Element `i` fails, or succeeds while chaining onto an empty path, which fails. */
  ghost predicate AllOfFailed(t: SchemaType, action: Action, trail: Trail, ov: Option<Data>, i: nat)
    requires t.AllOf? && TypeNilFree(t) && i < |t.elements|
  {
    AllOfRun(t, action, trail, ov, i).out.err.Some? || (t.chain.GetAction(action) && |trail| == 0)
  }

  /** The entries one allOf run contributes: its own causes, or the empty-path error. */
  function RunEntries(chain: ActionFlags, action: Action, trail: Trail, r: Run): seq<Entry<Trail>>
  {
    if r.out.err.Some? then NewSchemaWithCasting(trail, r.out.err.value).errors
    else if chain.GetAction(action) && |trail| == 0 then [Entry(trail, EmptyPath)]
    else []
  }

  /** The entries element `i` contributes. */
  ghost function AllOfEntries(t: SchemaType, action: Action, trail: Trail, ov: Option<Data>, i: nat): seq<Entry<Trail>>
    requires t.AllOf? && TypeNilFree(t) && i < |t.elements|
  {
    RunEntries(t.chain, action, trail, AllOfRun(t, action, trail, ov, i))
  }

  /** The entries of the first `i` elements, in element order. */
  ghost function AllOfEntriesUpTo(t: SchemaType, action: Action, trail: Trail, ov: Option<Data>, i: nat): seq<Entry<Trail>>
    requires t.AllOf? && TypeNilFree(t) && i <= |t.elements|
  {
    if i == 0 then [] else AllOfEntriesUpTo(t, action, trail, ov, i - 1) + AllOfEntries(t, action, trail, ov, i - 1)
  }

  /**
   * The allOf loop, element by element: it has an aggregate exactly when
   * some element so far failed, the aggregate holds every element's
   * entries in order (no element is skipped after a failure), and the value
   * is the last element's output.
   */
  lemma AllOfFold(t: SchemaType, action: Action, trail: Trail, ov: Option<Data>, i: nat)
    requires t.AllOf? && TypeNilFree(t) && i <= |t.elements|
    ensures AllOfUpTo(t, action, trail, ov, i).acc.Some? <==> exists j :: 0 <= j < i && AllOfFailed(t, action, trail, ov, j)
    ensures AllOfUpTo(t, action, trail, ov, i).acc.Some? ==>
              AllOfUpTo(t, action, trail, ov, i).acc.value.errors == AllOfEntriesUpTo(t, action, trail, ov, i)
    ensures AllOfUpTo(t, action, trail, ov, i).acc.None? ==> AllOfEntriesUpTo(t, action, trail, ov, i) == []
    ensures AllOfUpTo(t, action, trail, ov, i).data == if i == 0 then Null else AllOfRun(t, action, trail, ov, i - 1).out.data
  {
    AllOfFoldFailed(t, action, trail, ov, i);
    AllOfFoldEntries(t, action, trail, ov, i);
    if i > 0 {
      AllOfFoldStep(t, action, trail, ov, i - 1);
    }
  }

  /** The aggregate exists exactly when some element so far failed. */
  lemma {:induction false} AllOfFoldFailed(t: SchemaType, action: Action, trail: Trail, ov: Option<Data>, i: nat)
    requires t.AllOf? && TypeNilFree(t) && i <= |t.elements|
    ensures AllOfUpTo(t, action, trail, ov, i).acc.Some? <==> exists j :: 0 <= j < i && AllOfFailed(t, action, trail, ov, j)
  {
    if i > 0 {
      AllOfFoldFailed(t, action, trail, ov, i - 1);
      AllOfFoldStep(t, action, trail, ov, i - 1);
      if !AllOfFailed(t, action, trail, ov, i - 1) {
        assert forall j :: 0 <= j < i && AllOfFailed(t, action, trail, ov, j) ==> j < i - 1;
      }
    }
  }

  /** One step adds exactly its run's entries to the aggregate. */
  lemma StepEntries(chain: ActionFlags, action: Action, trail: Trail, s: AllOfState, r: Run, s': AllOfState,
                    before: seq<Entry<Trail>>, after: seq<Entry<Trail>>)
    requires s' == AllOfStep(chain, action, trail, s, r) && after == before + RunEntries(chain, action, trail, r)
    requires s.acc.Some? ==> s.acc.value.errors == before
    requires s.acc.None? ==> before == []
    ensures s'.acc.Some? ==> s'.acc.value.errors == after
    ensures s'.acc.None? ==> after == []
  {
  }

  /** After `i` elements the aggregate holds their entries in order; without one there are none. */
  ghost predicate EntriesKept(t: SchemaType, action: Action, trail: Trail, ov: Option<Data>, i: nat)
    requires t.AllOf? && TypeNilFree(t) && i <= |t.elements|
  {
    var s := AllOfUpTo(t, action, trail, ov, i);
    if s.acc.Some? then s.acc.value.errors == AllOfEntriesUpTo(t, action, trail, ov, i)
    else AllOfEntriesUpTo(t, action, trail, ov, i) == []
  }

  lemma {:induction false} AllOfFoldEntries(t: SchemaType, action: Action, trail: Trail, ov: Option<Data>, i: nat)
    requires t.AllOf? && TypeNilFree(t) && i <= |t.elements|
    ensures EntriesKept(t, action, trail, ov, i)
  {
    if i > 0 {
      AllOfFoldEntries(t, action, trail, ov, i - 1);
      AllOfEntriesStep(t, action, trail, ov, i - 1);
    }
  }

  /** The induction step of `AllOfFoldEntries`. */
  lemma AllOfEntriesStep(t: SchemaType, action: Action, trail: Trail, ov: Option<Data>, i: nat)
    requires t.AllOf? && TypeNilFree(t) && i < |t.elements|
    requires EntriesKept(t, action, trail, ov, i)
    ensures EntriesKept(t, action, trail, ov, i + 1)
  {
    AllOfNext(t, action, trail, ov, i);
    StepEntries(t.chain, action, trail, AllOfUpTo(t, action, trail, ov, i), AllOfRun(t, action, trail, ov, i),
                AllOfUpTo(t, action, trail, ov, i + 1), AllOfEntriesUpTo(t, action, trail, ov, i), AllOfEntriesUpTo(t, action, trail, ov, i + 1));
  }

  /** One allOf step: a failing element starts or extends the aggregate with its entries; any other leaves it. */
  lemma AllOfFoldStep(t: SchemaType, action: Action, trail: Trail, ov: Option<Data>, i: nat)
    requires t.AllOf? && TypeNilFree(t) && i < |t.elements|
    ensures var s, s' := AllOfUpTo(t, action, trail, ov, i), AllOfUpTo(t, action, trail, ov, i + 1);
      s'.data == AllOfRun(t, action, trail, ov, i).out.data &&
      (AllOfFailed(t, action, trail, ov, i) ==>
         s'.acc.Some? && s'.acc.value.errors == (if s.acc.Some? then s.acc.value.errors else []) + AllOfEntries(t, action, trail, ov, i)) &&
      (!AllOfFailed(t, action, trail, ov, i) ==> s'.acc == s.acc && AllOfEntries(t, action, trail, ov, i) == [])
  {
    AllOfNext(t, action, trail, ov, i);
  }

  /**
   * Go `AllOfType.Process`: success exactly when no element failed, with the
   * last element's output (nil for no elements); otherwise nil and the
   * aggregate of every failing element's entries. With chaining on, a last
   * success stays written as the caller's frame override.
   */
  lemma AllOfOutcome(t: SchemaType, action: Action, trail: Trail, ov: Option<Data>)
    requires t.AllOf? && TypeNilFree(t)
    ensures var r := EvalType(t, action, trail, ov);
      (r.out.err.None? <==> forall j :: 0 <= j < |t.elements| ==> !AllOfFailed(t, action, trail, ov, j)) &&
      (r.out.err.None? ==> r.out.data == if |t.elements| == 0 then Null else AllOfRun(t, action, trail, ov, |t.elements| - 1).out.data) &&
      (r.out.err.Some? ==> r.out.data == Null && r.out.err == Some(Aggregate(SchemaError(AllOfEntriesUpTo(t, action, trail, ov, |t.elements|)))))
    ensures var n := |t.elements|;
      n > 0 && t.chain.GetAction(action) && |trail| > 0 && AllOfRun(t, action, trail, ov, n - 1).out.err.None? ==>
        EvalType(t, action, trail, ov).ov == Some(AllOfRun(t, action, trail, ov, n - 1).out.data)
    ensures |t.elements| == 0 ==> EvalType(t, action, trail, ov) == Run(Outcome(Null, None), ov)
  {
    var n := |t.elements|;
    EvalAllOf(t, action, trail, ov);
    AllOfFold(t, action, trail, ov, n);
    if n > 0 {
      AllOfNext(t, action, trail, ov, n - 1);
    }
  }

  /**
   * Chaining (Go `AllOfType.Process` writing a success as the frame's
   * override): with chaining on for the action and a frame to write to, a
   * succeeding element's output is the value the next element reads;
   * without chaining the next element reads whatever override the element
   * left, so the success's output is not handed on.
   */
  lemma AllOfChainFeeds(t: SchemaType, action: Action, trail: Trail, ov: Option<Data>, i: nat)
    requires t.AllOf? && TypeNilFree(t) && i + 1 < |t.elements|
    ensures t.chain.GetAction(action) && |trail| > 0 && AllOfRun(t, action, trail, ov, i).out.err.None? ==>
              AllOfRun(t, action, trail, ov, i + 1) == MemberRun(t, action, trail, Some(AllOfRun(t, action, trail, ov, i).out.data), i + 1)
    ensures !t.chain.GetAction(action) ==>
              AllOfRun(t, action, trail, ov, i + 1) == MemberRun(t, action, trail, AllOfRun(t, action, trail, ov, i).ov, i + 1)
  {
    AllOfNext(t, action, trail, ov, i);
  }

  /** Int, then String with cast, then String of at least 2 characters. */
  function IntThenText(): SchemaType
  {
    AllOf([Some(Node(Some(IntLeaf(NewInt)), None)),
           Some(Node(Some(StringLeaf(NewString.SetCast(true))), None)),
           Some(Node(Some(StringLeaf(NewString.SetMinLen(2))), None))], NoFlags)
  }

  /**
   * The chained allOf of the allOf tests: 123 parsed as an int, cast to
   * the text "123", then checked for length; with chaining on it succeeds
   * with "123", without it the length check reads the int 123 and fails.
   */
  lemma AllOfChainScenario()
    ensures EvalType(IntThenText().SetChain(true), PARSE, StartTrail(Int(GoInt, 123)), None).out == Outcome(Str("123"), None)
    ensures EvalType(IntThenText(), PARSE, StartTrail(Int(GoInt, 123)), None).out.err.Some?
  {
    var trail := StartTrail(Int(GoInt, 123));
    ScenarioLeaves();
    ChainedScenario(IntThenText().SetChain(true), trail);
    UnchainedScenario(IntThenText(), trail);
  }

  /** The three elements' answers on 123 and on "123". */
  lemma ScenarioLeaves()
    ensures NewInt.Process(PARSE, Int(GoInt, 123)) == LeafOutcome(Int(GoInt, 123), None)
    ensures NewString.SetCast(true).Process(PARSE, Int(GoInt, 123)) == LeafOutcome(Str("123"), None)
    ensures NewString.SetMinLen(2).Process(PARSE, Str("123")) == LeafOutcome(Str("123"), None)
    ensures NewString.SetMinLen(2).Process(PARSE, Int(GoInt, 123)).err.Some?
  {
    assert NatText(1) == "1";
    assert NatText(12) == "12";
    assert FormatInt(123) == "123";
    assert Utf8Len("123") == 3;
  }

  lemma ChainedScenario(t: SchemaType, trail: Trail)
    requires t == IntThenText().SetChain(true) && trail == StartTrail(Int(GoInt, 123))
    requires NewInt.Process(PARSE, Int(GoInt, 123)) == LeafOutcome(Int(GoInt, 123), None)
    requires NewString.SetCast(true).Process(PARSE, Int(GoInt, 123)) == LeafOutcome(Str("123"), None)
    requires NewString.SetMinLen(2).Process(PARSE, Str("123")) == LeafOutcome(Str("123"), None)
    ensures EvalType(t, PARSE, trail, None).out == Outcome(Str("123"), None)
  {
    assert t.chain.GetAction(PARSE);
    assert trail == [Step("", Int(GoInt, 123))];
    AllOfNext(t, PARSE, trail, None, 0);
    assert AllOfUpTo(t, PARSE, trail, None, 1) == AllOfState(Int(GoInt, 123), None, Some(Int(GoInt, 123)));
    AllOfNext(t, PARSE, trail, None, 1);
    assert AllOfUpTo(t, PARSE, trail, None, 2) == AllOfState(Str("123"), None, Some(Str("123")));
    AllOfNext(t, PARSE, trail, None, 2);
    assert AllOfUpTo(t, PARSE, trail, None, 3) == AllOfState(Str("123"), None, Some(Str("123")));
    EvalAllOf(t, PARSE, trail, None);
  }

  lemma UnchainedScenario(t: SchemaType, trail: Trail)
    requires t == IntThenText() && trail == StartTrail(Int(GoInt, 123))
    requires NewInt.Process(PARSE, Int(GoInt, 123)) == LeafOutcome(Int(GoInt, 123), None)
    requires NewString.SetCast(true).Process(PARSE, Int(GoInt, 123)) == LeafOutcome(Str("123"), None)
    requires NewString.SetMinLen(2).Process(PARSE, Int(GoInt, 123)).err.Some?
    ensures EvalType(t, PARSE, trail, None).out.err.Some?
  {
    assert !t.chain.GetAction(PARSE);
    assert trail == [Step("", Int(GoInt, 123))];
    AllOfNext(t, PARSE, trail, None, 0);
    assert AllOfUpTo(t, PARSE, trail, None, 1).ov == None;
    AllOfNext(t, PARSE, trail, None, 1);
    assert AllOfUpTo(t, PARSE, trail, None, 2).ov == None;
    AllOfNext(t, PARSE, trail, None, 2);
    assert AllOfUpTo(t, PARSE, trail, None, 3).acc.Some?;
    EvalAllOf(t, PARSE, trail, None);
  }

  // ---------------------------------------------------------------------
  // anyOf

  /** The run of anyOf element `i`, on the override the earlier elements left. */
  ghost function AnyOfRun(t: SchemaType, action: Action, trail: Trail, ov: Option<Data>, i: nat): Run
    requires t.AnyOf? && TypeNilFree(t) && i < |t.elements|
  {
    MemberRun(t, action, trail, AnyOfUpTo(t, action, trail, ov, i).ov, i)
  }

  /**
   * While every element so far has failed, the loop keeps the first
   * failure's aggregate, and its error is the first failure itself or, from
   * the second failure on, the first aggregate merged with the latest
   * failure only: the failures in between are lost.
   */
  lemma {:induction false} AnyOfFailures(t: SchemaType, action: Action, trail: Trail, ov: Option<Data>, i: nat)
    requires t.AnyOf? && TypeNilFree(t) && 0 < i <= |t.elements|
    requires forall j :: 0 <= j < i ==> AnyOfRun(t, action, trail, ov, j).out.err.Some?
    ensures var s := AnyOfUpTo(t, action, trail, ov, i);
      var e0 := AnyOfRun(t, action, trail, ov, 0).out.err.value;
      !s.done && s.first == Some(NewSchemaWithCasting(trail, e0)) &&
      s.err == if i == 1 then Some(e0)
               else Some(Aggregate(NewSchemaWithCasting(trail, e0).MergeWithCast(trail, AnyOfRun(t, action, trail, ov, i - 1).out.err.value)))
  {
    AnyOfNext(t, action, trail, ov, i - 1);
    var r := AnyOfRun(t, action, trail, ov, i - 1);
    assert r.out.err.Some?;
    if i > 1 {
      AnyOfFailures(t, action, trail, ov, i - 1);
    } else {
      assert AnyOfUpTo(t, action, trail, ov, 0) == AnyOfState(false, Null, None, None, ov);
    }
  }

  /**
   * Go `AnyOfType.Process` when every element fails: no elements give nil
   * and no error; one gives that element's error unchanged; more give the
   * first element's entries followed by the last element's.
   */
  lemma AnyOfAllFail(t: SchemaType, action: Action, trail: Trail, ov: Option<Data>)
    requires t.AnyOf? && TypeNilFree(t)
    requires forall j :: 0 <= j < |t.elements| ==> AnyOfRun(t, action, trail, ov, j).out.err.Some?
    ensures var r := EvalType(t, action, trail, ov).out;
      var n := |t.elements|;
      r.data == Null &&
      (n == 0 ==> r.err.None?) &&
      (n == 1 ==> r.err == AnyOfRun(t, action, trail, ov, 0).out.err) &&
      (n >= 2 ==> r.err == Some(Aggregate(SchemaError(
                    NewSchemaWithCasting(trail, AnyOfRun(t, action, trail, ov, 0).out.err.value).errors +
                    NewSchemaWithCasting(trail, AnyOfRun(t, action, trail, ov, n - 1).out.err.value).errors))))
  {
    EvalAnyOf(t, action, trail, ov);
    if |t.elements| > 0 {
      AnyOfFailures(t, action, trail, ov, |t.elements|);
    }
  }

  /** Before the first success, two anyOf types agreeing on their first elements run the same way. */
  lemma {:induction false} AnyOfSamePrefix(t: SchemaType, t': SchemaType, action: Action, trail: Trail, ov: Option<Data>, i: nat)
    requires t.AnyOf? && TypeNilFree(t) && t'.AnyOf? && TypeNilFree(t')
    requires i <= |t.elements| && i <= |t'.elements| && t.elements[..i] == t'.elements[..i]
    ensures AnyOfUpTo(t, action, trail, ov, i) == AnyOfUpTo(t', action, trail, ov, i)
  {
    if i > 0 {
      assert t.elements[..i - 1] == t.elements[..i][..i - 1];
      assert t'.elements[..i - 1] == t'.elements[..i][..i - 1];
      AnyOfSamePrefix(t, t', action, trail, ov, i - 1);
      assert t.elements[i - 1] == t.elements[..i][i - 1];
      AnyOfNext(t, action, trail, ov, i - 1);
      AnyOfNext(t', action, trail, ov, i - 1);
    }
  }

  /**
   * Go `AnyOfType.Process` stops at the first success: it returns that
   * element's output, and the elements after it are never run, so an anyOf
   * with any other elements after it gives the same result.
   */
  lemma AnyOfFirstSuccess(t: SchemaType, t': SchemaType, action: Action, trail: Trail, ov: Option<Data>, j: nat)
    requires t.AnyOf? && TypeNilFree(t) && t'.AnyOf? && TypeNilFree(t')
    requires j < |t.elements| && j < |t'.elements| && t.elements[..j + 1] == t'.elements[..j + 1]
    requires forall k :: 0 <= k < j ==> AnyOfRun(t, action, trail, ov, k).out.err.Some?
    requires AnyOfRun(t, action, trail, ov, j).out.err.None?
    ensures EvalType(t, action, trail, ov).out == Outcome(AnyOfRun(t, action, trail, ov, j).out.data, None)
    ensures EvalType(t', action, trail, ov) == EvalType(t, action, trail, ov)
  {
    AnyOfDoneAt(t, action, trail, ov, j);
    AnyOfSamePrefix(t, t', action, trail, ov, j + 1);
    AnyOfEvalDone(t, action, trail, ov, j + 1);
    AnyOfEvalDone(t', action, trail, ov, j + 1);
  }

  /** The first success ends the loop with its output. */
  lemma AnyOfDoneAt(t: SchemaType, action: Action, trail: Trail, ov: Option<Data>, j: nat)
    requires t.AnyOf? && TypeNilFree(t) && j < |t.elements|
    requires forall k :: 0 <= k < j ==> AnyOfRun(t, action, trail, ov, k).out.err.Some?
    requires AnyOfRun(t, action, trail, ov, j).out.err.None?
    ensures AnyOfUpTo(t, action, trail, ov, j + 1).done
    ensures AnyOfUpTo(t, action, trail, ov, j + 1).data == AnyOfRun(t, action, trail, ov, j).out.data
  {
    AnyOfNoneDone(t, action, trail, ov, j);
    AnyOfNext(t, action, trail, ov, j);
  }

  /** Once the loop is done, the anyOf result is the state it stopped in. */
  lemma AnyOfEvalDone(t: SchemaType, action: Action, trail: Trail, ov: Option<Data>, i: nat)
    requires t.AnyOf? && TypeNilFree(t) && i <= |t.elements|
    requires AnyOfUpTo(t, action, trail, ov, i).done
    ensures EvalType(t, action, trail, ov) == AnyOfResult(AnyOfUpTo(t, action, trail, ov, i))
  {
    AnyOfStays(t, action, trail, ov, i, |t.elements|);
    EvalAnyOf(t, action, trail, ov);
  }

  /** While every element has failed, the loop is not done. */
  lemma {:induction false} AnyOfNoneDone(t: SchemaType, action: Action, trail: Trail, ov: Option<Data>, i: nat)
    requires t.AnyOf? && TypeNilFree(t) && i <= |t.elements|
    requires forall k :: 0 <= k < i ==> AnyOfRun(t, action, trail, ov, k).out.err.Some?
    ensures !AnyOfUpTo(t, action, trail, ov, i).done
  {
    if i > 0 {
      AnyOfNoneDone(t, action, trail, ov, i - 1);
      AnyOfNext(t, action, trail, ov, i - 1);
      assert AnyOfRun(t, action, trail, ov, i - 1).out.err.Some?;
    }
  }

  // ---------------------------------------------------------------------
  // oneOf

  /** The run of oneOf element `i`, on the override the earlier elements left. */
  ghost function OneOfRun(t: SchemaType, action: Action, trail: Trail, ov: Option<Data>, i: nat): Run
    requires t.OneOf? && TypeNilFree(t) && i < |t.elements|
  {
    MemberRun(t, action, trail, OneOfUpTo(t, action, trail, ov, i).ov, i)
  }

  /** How many of the first `i` elements succeed. */
  ghost function Successes(t: SchemaType, action: Action, trail: Trail, ov: Option<Data>, i: nat): nat
    requires t.OneOf? && TypeNilFree(t) && i <= |t.elements|
  {
    if i == 0 then 0
    else Successes(t, action, trail, ov, i - 1) + (if OneOfRun(t, action, trail, ov, i - 1).out.err.None? then 1 else 0)
  }

  /**
   * The oneOf loop counts successes: it has matched once some element
   * succeeded, it is ambiguous once two did, and while only one did its
   * value is that element's output.
   */
  lemma {:induction false} OneOfCounts(t: SchemaType, action: Action, trail: Trail, ov: Option<Data>, i: nat)
    requires t.OneOf? && TypeNilFree(t) && i <= |t.elements|
    ensures OneOfUpTo(t, action, trail, ov, i).processed <==> Successes(t, action, trail, ov, i) >= 1
    ensures OneOfUpTo(t, action, trail, ov, i).ambiguous <==> Successes(t, action, trail, ov, i) >= 2
    ensures forall j :: 0 <= j < i && OneOfRun(t, action, trail, ov, j).out.err.None? && Successes(t, action, trail, ov, i) == 1 ==>
              OneOfUpTo(t, action, trail, ov, i).data == OneOfRun(t, action, trail, ov, j).out.data
  {
    if i > 0 {
      OneOfCounts(t, action, trail, ov, i - 1);
      OneOfNext(t, action, trail, ov, i - 1);
      forall j | 0 <= j < i && OneOfRun(t, action, trail, ov, j).out.err.None? && Successes(t, action, trail, ov, i) == 1
        ensures OneOfUpTo(t, action, trail, ov, i).data == OneOfRun(t, action, trail, ov, j).out.data
      {
        if j < i - 1 {
          SuccessCounted(t, action, trail, ov, j, i - 1);
        }
      }
    }
  }

  /** A succeeding element among the first `i` is counted. */
  lemma {:induction false} SuccessCounted(t: SchemaType, action: Action, trail: Trail, ov: Option<Data>, j: nat, i: nat)
    requires t.OneOf? && TypeNilFree(t) && j < i <= |t.elements|
    requires OneOfRun(t, action, trail, ov, j).out.err.None?
    ensures Successes(t, action, trail, ov, i) >= 1
  {
    if j < i - 1 {
      SuccessCounted(t, action, trail, ov, j, i - 1);
    }
  }

  /**
   * Go `OneOfType.Process`: no success gives one "no type match" entry, two
   * or more give one "multiple types match" entry, and exactly one gives
   * that element's output, whatever the others did.
   */
  lemma OneOfOutcome(t: SchemaType, action: Action, trail: Trail, ov: Option<Data>)
    requires t.OneOf? && TypeNilFree(t)
    ensures var r := EvalType(t, action, trail, ov).out;
      var c := Successes(t, action, trail, ov, |t.elements|);
      (c == 0 ==> r == Fail(trail, NoTypeMatch)) &&
      (c >= 2 ==> r == Fail(trail, MultipleTypesMatch)) &&
      (forall j :: 0 <= j < |t.elements| && OneOfRun(t, action, trail, ov, j).out.err.None? && c == 1 ==>
         r == Outcome(OneOfRun(t, action, trail, ov, j).out.data, None))
  {
    EvalOneOf(t, action, trail, ov);
    OneOfCounts(t, action, trail, ov, |t.elements|);
  }
}
