// The string schema type: reads text, optionally casting integers to their
// decimal form, and bounds its length in bytes.
module StringTypes {
  import opened Wrappers
  import opened Values
  import opened SchemaErrors
  import opened Properties
  import opened Text
  import opened Strconv

  /** A Go `int` or `int64`, the integer types the casts accept. */
  predicate IsGoInt(v: Data)
  {
    v.Int? && (v.kind == GoInt || v.kind == GoInt64)
  }

  /** Go's `StringType`: an optional cast flag and optional byte-length bounds. */
  datatype StringType = StringType(cast: Option<ActionFlags>, minLen: Option<int64>, maxLen: Option<int64>)
  {
    /**
     * Go `StringType.Process`. The action only decides whether casting is on;
     * every action is accepted.
     */
    function Process(action: Action, v: Data): (r: LeafOutcome)
      ensures r.err.Some? ==> r.data == Str("") && r.err.value.AtPath?
      ensures r.err.None? ==> r.data.Str? && InBounds(Utf8Len(r.data.s), minLen, maxLen)
      ensures v.Str? ==> (r.err.None? <==> InBounds(Utf8Len(v.s), minLen, maxLen))
      ensures v.Str? && r.err.None? ==> r.data == v
      ensures !FlagOn(cast, action) && !v.Str? ==> r == LeafOutcome(Str(""), Some(AtPath(NotAString)))
      ensures FlagOn(cast, action) && !v.Str? && !IsGoInt(v) ==> r == LeafOutcome(Str(""), Some(AtPath(CannotCastToString)))
      ensures FlagOn(cast, action) && IsGoInt(v) ==> (r.err.None? <==> InBounds(Utf8Len(FormatInt(v.i)), minLen, maxLen))
      ensures FlagOn(cast, action) && IsGoInt(v) && r.err.None? ==> r.data.s == FormatInt(v.i)
    {
      var text: Result<string, Cause> :=
        if v.Str? then Ok(v.s)
        else if !FlagOn(cast, action) then Err(NotAString)
        else if IsGoInt(v) then Ok(FormatInt(v.i))
        else Err(CannotCastToString);
      match text
      case Err(c) => LeafOutcome(Str(""), Some(AtPath(c)))
      case Ok(s) =>
        match LengthError(Utf8Len(s), minLen, maxLen)
        case Some(c) => LeafOutcome(Str(""), Some(AtPath(c)))
        case None => LeafOutcome(Str(s), None)
    }

    /** Switches casting on or off for every action, keeping the per-action set. */
    function SetCast(on: bool): (r: StringType)
      ensures r.minLen == minLen && r.maxLen == maxLen
      ensures on ==> forall a :: FlagOn(r.cast, a)
      ensures !on ==> forall a :: FlagOn(r.cast, a) <==> cast.Some? && a in cast.value.enabled
    {
      this.(cast := Some(SetAll(cast, on)))
    }

    /** Casts exactly for `actions` (unless casting is on for all). */
    function SetCastActions(actions: seq<Action>): (r: StringType)
      ensures r.minLen == minLen && r.maxLen == maxLen
      ensures forall a :: FlagOn(r.cast, a) <==> (cast.Some? && cast.value.all) || a in actions
    {
      this.(cast := Some(SetActionsOf(cast, actions)))
    }

    /** Stops casting for `actions`; an unset flag stays unset. */
    function UnsetCastActions(actions: seq<Action>): (r: StringType)
      ensures r.minLen == minLen && r.maxLen == maxLen
      ensures forall a :: FlagOn(r.cast, a) <==> FlagOn(cast, a) && ((cast.Some? && cast.value.all) || a !in actions)
    {
      this.(cast := UnsetActionsOf(cast, actions))
    }

    function SetMinLen(n: int64): (r: StringType)
      ensures r.cast == cast && r.maxLen == maxLen && r.minLen == Some(n)
    {
      this.(minLen := Some(n))
    }

    function SetMaxLen(n: int64): (r: StringType)
      ensures r.cast == cast && r.minLen == minLen && r.maxLen == Some(n)
    {
      this.(maxLen := Some(n))
    }
  }

  /** Go `String()`: no cast, no bounds. */
  const NewString := StringType(None, None, None)

  /** Casting an integer to text and reading it back as an integer gives it back. */
  lemma CastIntToText(t: StringType, action: Action, i: int)
    requires FlagOn(t.cast, action) && InInt64(i)
    requires t.Process(action, Int(GoInt, i)).err.None?
    ensures Atoi(t.Process(action, Int(GoInt, i)).data.s) == Ok(i)
  {
    AtoiFormatInt(i);
  }

  /** Both bounds are inclusive: a length equal to a bound is accepted (for any length a Go `int` bound can name). */
  lemma BoundsInclusive(s: string)
    requires Utf8Len(s) < 0x7FFF_FFFF_FFFF_FFFF
    ensures NewString.SetMinLen(Utf8Len(s)).SetMaxLen(Utf8Len(s)).Process(PARSE, Str(s)) == LeafOutcome(Str(s), None)
    ensures NewString.SetMinLen(Utf8Len(s) + 1).Process(PARSE, Str(s)).err == Some(AtPath(TooShort(Utf8Len(s), Utf8Len(s) + 1)))
  {
    var n: int64 := Utf8Len(s);
    var n1: int64 := n + 1;
    var exact := StringType(None, Some(n), Some(n));
    assert NewString.SetMinLen(n).SetMaxLen(n) == exact;
    assert LengthError(n, Some(n), Some(n)) == None;
    assert exact.Process(PARSE, Str(s)) == LeafOutcome(Str(s), None);
    var short := StringType(None, Some(n1), None);
    assert NewString.SetMinLen(n1) == short;
    assert LengthError(n, Some(n1), None) == Some(TooShort(n, n1));
  }
}
