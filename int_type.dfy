// The int schema type: reads a Go `int`, optionally casting `int64` values
// and decimal text, and bounds the value.
module IntTypes {
  import opened Wrappers
  import opened Values
  import opened SchemaErrors
  import opened Properties
  import opened Strconv
  import StringTypes

  /** The cause a value check reports; the minimum is checked first. */
  function ValueError(n: int, min: Option<int64>, max: Option<int64>): (r: Option<Cause>)
    ensures r.None? <==> InBounds(n, min, max)
    ensures min.Some? && min.value > n ==> r == Some(BelowMin(n, min.value))
    ensures !(min.Some? && min.value > n) && max.Some? && max.value < n ==> r == Some(AboveMax(n, max.value))
  {
    if min.Some? && min.value > n then Some(BelowMin(n, min.value))
    else if max.Some? && max.value < n then Some(AboveMax(n, max.value))
    else None
  }

  /** Go's `IntType`: an optional cast flag and optional inclusive bounds. */
  datatype IntType = IntType(cast: Option<ActionFlags>, min: Option<int64>, max: Option<int64>)
  {
    /**
     * Go `IntType.cast`: integers of type `int` or `int64` as they are,
     * text through `strconv.Atoi`, nothing else.
     */
    function Cast(v: Data): (r: Result<int, Cause>)
      ensures StringTypes.IsGoInt(v) ==> r == Ok(v.i)
      ensures v.Str? ==> (r.Ok? <==> Atoi(v.s).Ok?)
      ensures v.Str? && r.Ok? ==> r.value == Atoi(v.s).value && InInt64(r.value)
      ensures v.Str? && r.Err? ==> r.error == AtoiFailed(v.s)
      ensures !StringTypes.IsGoInt(v) && !v.Str? ==> r == Err(CannotCastToInt)
    {
      if StringTypes.IsGoInt(v) then Ok(v.i)
      else if v.Str? then
        match Atoi(v.s)
        case Ok(n) => Ok(n)
        case Err(_) => Err(AtoiFailed(v.s))
      else Err(CannotCastToInt)
    }

    /**
     * Go `IntType.Process`: only PARSE and SERIALIZE are accepted; the
     * result is always a Go `int`, 0 beside an error.
     */
    function Process(action: Action, v: Data): (r: LeafOutcome)
      ensures action != PARSE && action != SERIALIZE ==> r == LeafOutcome(Null, Some(Bare(InvalidAction(action, "IntType"))))
      ensures (action == PARSE || action == SERIALIZE) ==> r.data.Int? && r.data.kind == GoInt
      ensures (action == PARSE || action == SERIALIZE) && r.err.Some? ==> r.data.i == 0 && r.err.value.AtPath?
      ensures r.err.None? ==> InBounds(r.data.i, min, max)
      ensures (action == PARSE || action == SERIALIZE) && v.Int? && v.kind == GoInt ==>
                (r.err.None? <==> InBounds(v.i, min, max)) && (r.err.None? ==> r.data == v)
      ensures (action == PARSE || action == SERIALIZE) && !FlagOn(cast, action) && !(v.Int? && v.kind == GoInt) ==>
                r == LeafOutcome(Int(GoInt, 0), Some(AtPath(NotAnInt)))
      ensures (action == PARSE || action == SERIALIZE) && FlagOn(cast, action) && Cast(v).Ok? ==>
                (r.err.None? <==> InBounds(Cast(v).value, min, max)) && (r.err.None? ==> r.data.i == Cast(v).value)
      ensures (action == PARSE || action == SERIALIZE) && FlagOn(cast, action) && Cast(v).Err? ==>
                r == LeafOutcome(Int(GoInt, 0), Some(AtPath(Cast(v).error)))
    {
      if action != PARSE && action != SERIALIZE then LeafOutcome(Null, Some(Bare(InvalidAction(action, "IntType"))))
      else
        var n: Result<int, Cause> :=
          if !FlagOn(cast, action) then (if v.Int? && v.kind == GoInt then Ok(v.i) else Err(NotAnInt))
          else Cast(v);
        match n
        case Err(c) => LeafOutcome(Int(GoInt, 0), Some(AtPath(c)))
        case Ok(i) =>
          match ValueError(i, min, max)
          case Some(c) => LeafOutcome(Int(GoInt, 0), Some(AtPath(c)))
          case None => LeafOutcome(Int(GoInt, i), None)
    }

    /** Switches casting on or off for every action, keeping the per-action set. */
    function SetCast(on: bool): (r: IntType)
      ensures r.min == min && r.max == max
      ensures on ==> forall a :: FlagOn(r.cast, a)
      ensures !on ==> forall a :: FlagOn(r.cast, a) <==> cast.Some? && a in cast.value.enabled
    {
      this.(cast := Some(SetAll(cast, on)))
    }

    /** Casts exactly for `actions` (unless casting is on for all). */
    function SetCastActions(actions: seq<Action>): (r: IntType)
      ensures r.min == min && r.max == max
      ensures forall a :: FlagOn(r.cast, a) <==> (cast.Some? && cast.value.all) || a in actions
    {
      this.(cast := Some(SetActionsOf(cast, actions)))
    }

    /** Stops casting for `actions`; an unset flag stays unset. */
    function UnsetCastActions(actions: seq<Action>): (r: IntType)
      ensures r.min == min && r.max == max
      ensures forall a :: FlagOn(r.cast, a) <==> FlagOn(cast, a) && ((cast.Some? && cast.value.all) || a !in actions)
    {
      this.(cast := UnsetActionsOf(cast, actions))
    }

    function SetMin(n: int64): (r: IntType)
      ensures r.cast == cast && r.max == max && r.min == Some(n)
    {
      this.(min := Some(n))
    }

    function SetMax(n: int64): (r: IntType)
      ensures r.cast == cast && r.min == min && r.max == Some(n)
    {
      this.(max := Some(n))
    }
  }

  /** Go `Int()`: no cast, no bounds. */
  const NewInt := IntType(None, None, None)

  /**
   * Text made by casting an integer to a string is cast back to the same
   * integer: the string and int casts are inverse on Go `int`s.
   */
  lemma TextCastsBack(t: IntType, action: Action, i: int)
    requires action == PARSE || action == SERIALIZE
    requires FlagOn(t.cast, action) && InInt64(i)
    ensures t.Process(action, Str(FormatInt(i))).err.None? <==> InBounds(i, t.min, t.max)
    ensures t.Process(action, Str(FormatInt(i))).err.None? ==> t.Process(action, Str(FormatInt(i))).data == Int(GoInt, i)
  {
    AtoiFormatInt(i);
  }

  /**
   * The bounds are inclusive: [1, 1] accepts 1, and [1, 3] refuses 0 and 4
   * with the bound that was crossed.
   */
  lemma BoundsInclusive()
    ensures NewInt.SetMin(1).SetMax(1).Process(PARSE, Int(GoInt, 1)) == LeafOutcome(Int(GoInt, 1), None)
    ensures NewInt.SetMin(1).SetMax(3).Process(PARSE, Int(GoInt, 0)).err == Some(AtPath(BelowMin(0, 1)))
    ensures NewInt.SetMin(1).SetMax(3).Process(PARSE, Int(GoInt, 4)).err == Some(AtPath(AboveMax(4, 3)))
  {
    var one := IntType(None, Some(1), Some(1));
    assert NewInt.SetMin(1).SetMax(1) == one;
    var range := IntType(None, Some(1), Some(3));
    assert NewInt.SetMin(1).SetMax(3) == range;
  }

  /** Without cast an `int64` is refused; with cast a malformed text reports Atoi's failure. */
  lemma CastNeeded()
    ensures NewInt.Process(PARSE, Int(GoInt64, 5)) == LeafOutcome(Int(GoInt, 0), Some(AtPath(NotAnInt)))
    ensures NewInt.SetCast(true).Process(PARSE, Int(GoInt64, 5)) == LeafOutcome(Int(GoInt, 5), None)
    ensures NewInt.SetCast(true).Process(PARSE, Str("12a")) == LeafOutcome(Int(GoInt, 0), Some(AtPath(AtoiFailed("12a"))))
  {
    AtoiSigns();
  }
}
