// The bool schema type: reads a bool or, with cast, text, bytes and
// integers. Its setters update the type in place.
module BoolTypes {
  import opened Wrappers
  import opened Values
  import opened SchemaErrors
  import opened Properties
  import opened Text

  /**
   * The bool a value casts to, if any. Text must be "true" or "false" in
   * any letter case. A byte or byte slice is true when it holds a non-zero
   * byte, except that any slice of two or more bytes is true. For integers
   * the Go code compares the interface value with the constant 0, which is
   * a Go `int`, so only an `int` zero is false. A bool itself is not among
   * the cases and cannot be cast.
   */
  function CastBool(v: Data): (r: Option<bool>)
    ensures v.Str? ==> (r.Some? <==> LowerEquals(v.s, "true") || LowerEquals(v.s, "false"))
    ensures v.Str? && r.Some? ==> r.value == LowerEquals(v.s, "true")
    ensures v.Byte? ==> r == Some(v.octet != 0)
    ensures v.Bytes? ==> r == Some(|v.octets| > 1 || (|v.octets| == 1 && v.octets[0] != 0))
    ensures v.Int? ==> (r.Some? <==> v.kind != Narrow)
    ensures v.Int? && r.Some? ==> (r.value <==> !(v.kind == GoInt && v.i == 0))
    ensures !(v.Str? || v.Byte? || v.Bytes? || v.Int?) ==> r.None?
  {
    match v
    case Str(s) =>
      if LowerEquals(s, "true") then Some(true)
      else if LowerEquals(s, "false") then Some(false)
      else None
    case Byte(b) => Some(b != 0)
    case Bytes(bs) => Some(|bs| > 1 || (|bs| == 1 && bs[0] != 0))
    case Int(kind, i) => if kind == Narrow then None else Some(!(kind == GoInt && i == 0))
    case _ => None
  }

  /** Go's `BoolType`: an optional cast flag. */
  datatype BoolType = BoolType(cast: Option<ActionFlags>)
  {
    /**
     * Go `BoolType.Process`: the value is validated first; then PARSE and
     * SERIALIZE return the bool and any other action is refused.
     */
    function Process(action: Action, v: Data): (r: LeafOutcome)
      ensures r.err.Some? ==> r.data == Null && r.err.value.AtPath?
      ensures r.err.None? ==> r.data.Bool? && (action == PARSE || action == SERIALIZE)
      ensures !FlagOn(cast, action) && !v.Bool? ==> r == LeafOutcome(Null, Some(AtPath(NotABool)))
      ensures !FlagOn(cast, action) && v.Bool? && (action == PARSE || action == SERIALIZE) ==> r == LeafOutcome(v, None)
      ensures FlagOn(cast, action) && CastBool(v).None? ==> r == LeafOutcome(Null, Some(AtPath(CannotCastToBool)))
      ensures FlagOn(cast, action) && CastBool(v).Some? && (action == PARSE || action == SERIALIZE) ==>
                r == LeafOutcome(Bool(CastBool(v).value), None)
      ensures action != PARSE && action != SERIALIZE && (if FlagOn(cast, action) then CastBool(v).Some? else v.Bool?) ==>
                r == LeafOutcome(Null, Some(AtPath(InvalidAction(action, "BoolType"))))
    {
      var parsed: Result<bool, Cause> :=
        if FlagOn(cast, action) then
          (match CastBool(v) case Some(b) => Ok(b) case None => Err(CannotCastToBool))
        else if v.Bool? then Ok(v.b)
        else Err(NotABool);
      match parsed
      case Err(c) => LeafOutcome(Null, Some(AtPath(c)))
      case Ok(b) =>
        if action == SERIALIZE || action == PARSE then LeafOutcome(Bool(b), None)
        else LeafOutcome(Null, Some(AtPath(InvalidAction(action, "BoolType"))))
    }
  }

  /** Go `Bool()`: no cast. */
  const NewBool := BoolType(None)

  /** A `*BoolType`, whose cast setters update it in place. */
  class BoolTypeRef {
    var cast: Option<ActionFlags>

    function Value(): BoolType
      reads this
    {
      BoolType(cast)
    }

    constructor ()
      ensures Value() == NewBool
    {
      cast := None;
    }

    method SetCast(on: bool)
      modifies this
      ensures on ==> forall a :: FlagOn(cast, a)
      ensures !on ==> forall a :: FlagOn(cast, a) <==> old(cast).Some? && a in old(cast).value.enabled
    {
      cast := Some(SetAll(cast, on));
    }

    method SetCastActions(actions: seq<Action>)
      modifies this
      ensures forall a :: FlagOn(cast, a) <==> (old(cast).Some? && old(cast).value.all) || a in actions
    {
      cast := Some(SetActionsOf(cast, actions));
    }

    method UnsetCastActions(actions: seq<Action>)
      modifies this
      ensures forall a :: FlagOn(cast, a) <==> FlagOn(old(cast), a) && ((old(cast).Some? && old(cast).value.all) || a !in actions)
    {
      cast := UnsetActionsOf(cast, actions);
    }
  }

  /** With cast on, a real bool is refused, and text is matched whatever its letter case. */
  lemma CastRefusesBool(t: BoolType, action: Action, b: bool)
    requires FlagOn(t.cast, action)
    ensures t.Process(action, Bool(b)) == LeafOutcome(Null, Some(AtPath(CannotCastToBool)))
  {
  }

  /**
   * Only a Go `int` zero casts to false: zeros of `int64`, `uint` and
   * `uint64` cast to true.
   */
  lemma ZeroOfOtherKinds(t: BoolType, kind: IntKind)
    requires FlagOn(t.cast, PARSE) && kind != Narrow
    ensures t.Process(PARSE, Int(kind, 0)).data == Bool(kind != GoInt)
  {
  }

  /** "False" casts to false, "TRUE" to true, and "yes" is refused. */
  lemma CaseInsensitive()
    ensures BoolType(Some(ActionFlags(true, {}))).Process(PARSE, Str("False")) == LeafOutcome(Bool(false), None)
    ensures BoolType(Some(ActionFlags(true, {}))).Process(PARSE, Str("TRUE")) == LeafOutcome(Bool(true), None)
    ensures BoolType(Some(ActionFlags(true, {}))).Process(PARSE, Str("yes")).err.Some?
  {
    assert !LowerEquals("False", "true");
    assert LowerEquals("False", "false");
    assert LowerEquals("TRUE", "true");
    assert !LowerEquals("yes", "true") && !LowerEquals("yes", "false");
  }
}
