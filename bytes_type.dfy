// The bytes schema type: reads a byte slice or, with cast, Base64 text or a
// single byte, bounds the number of bytes, and serializes to Base64 text.
module BytesTypes {
  import opened Wrappers
  import opened Values
  import opened SchemaErrors
  import opened Properties
  import Base64

  /**
   * Go's `BytesType`. Its cast flag and bounds are struct values, not
   * pointers: an unset flag is simply empty.
   */
  datatype BytesType = BytesType(cast: ActionFlags, maxLen: Option<int64>, minLen: Option<int64>)
  {
    /**
     * Go `BytesType.parse`: the bytes a value stands for, checked against the
     * bounds.
     */
    function Validate(action: Action, v: Data): (r: Result<seq<byte>, Cause>)
      ensures r.Ok? ==> InBounds(|r.value|, minLen, maxLen)
      ensures v.Bytes? ==> (r.Ok? <==> InBounds(|v.octets|, minLen, maxLen)) && (r.Ok? ==> r.value == v.octets)
      ensures !cast.GetAction(action) && !v.Bytes? ==> r == Err(NotBytes)
      ensures cast.GetAction(action) && v.Byte? ==> (r.Ok? <==> InBounds(1, minLen, maxLen)) && (r.Ok? ==> r.value == [v.octet])
      ensures cast.GetAction(action) && v.Str? && Base64.Decode(v.s).Err? ==> r == Err(Base64Failed)
      ensures cast.GetAction(action) && v.Str? && Base64.Decode(v.s).Ok? ==>
                (r.Ok? <==> InBounds(|Base64.Decode(v.s).value|, minLen, maxLen)) && (r.Ok? ==> r.value == Base64.Decode(v.s).value)
      ensures cast.GetAction(action) && !(v.Str? || v.Bytes? || v.Byte?) ==> r == Err(CannotCastToBytes)
    {
      var bytes: Result<seq<byte>, Cause> :=
        if v.Bytes? then Ok(v.octets)
        else if !cast.GetAction(action) then Err(NotBytes)
        else if v.Byte? then Ok([v.octet])
        else if v.Str? then
          (match Base64.Decode(v.s) case Ok(b) => Ok(b) case Err(_) => Err(Base64Failed))
        else Err(CannotCastToBytes);
      match bytes
      case Err(c) => Err(c)
      case Ok(b) =>
        match LengthError(|b|, minLen, maxLen)
        case Some(c) => Err(c)
        case None => Ok(b)
    }

    /**
     * Go `BytesType.Parse`: the validated bytes. On an error Go still returns
     * a typed nil slice, an empty `Bytes` here.
     */
    function Parse(v: Data): (r: LeafOutcome)
      ensures Validate(PARSE, v).Ok? ==> r == LeafOutcome(Bytes(Validate(PARSE, v).value), None)
      ensures Validate(PARSE, v).Err? ==> r == LeafOutcome(Bytes([]), Some(AtPath(Validate(PARSE, v).error)))
    {
      match Validate(PARSE, v)
      case Ok(b) => LeafOutcome(Bytes(b), None)
      case Err(c) => LeafOutcome(Bytes([]), Some(AtPath(c)))
    }

    /** Go `BytesType.Serialize`: the Base64 text of the validated bytes. */
    function Serialize(v: Data): (r: LeafOutcome)
      ensures r.err.None? <==> Validate(SERIALIZE, v).Ok?
      ensures r.err.None? ==> r.data.Str? && Base64.Decode(r.data.s) == Ok(Validate(SERIALIZE, v).value)
      ensures r.err.Some? ==> r == LeafOutcome(Null, Some(AtPath(Validate(SERIALIZE, v).error)))
    {
      match Validate(SERIALIZE, v)
      case Ok(b) =>
        Base64.DecodeEncode(b);
        LeafOutcome(Str(Base64.Encode(b)), None)
      case Err(c) => LeafOutcome(Null, Some(AtPath(c)))
    }

    /**
     * The bytes type offers Parse and Serialize only; dispatching on the
     * action, any other action is refused.
     */
    function Process(action: Action, v: Data): (r: LeafOutcome)
      ensures action == PARSE ==> r == Parse(v)
      ensures action == SERIALIZE ==> r == Serialize(v)
      ensures action != PARSE && action != SERIALIZE ==> r == LeafOutcome(Null, Some(Bare(InvalidAction(action, "BytesType"))))
    {
      if action == PARSE then Parse(v)
      else if action == SERIALIZE then Serialize(v)
      else LeafOutcome(Null, Some(Bare(InvalidAction(action, "BytesType"))))
    }

    function SetMinLen(n: int64): (r: BytesType)
      ensures r.cast == cast && r.maxLen == maxLen && r.minLen == Some(n)
    {
      this.(minLen := Some(n))
    }

    function SetMaxLen(n: int64): (r: BytesType)
      ensures r.cast == cast && r.minLen == minLen && r.maxLen == Some(n)
    {
      this.(maxLen := Some(n))
    }

    /** Switches casting on or off for every action, keeping the per-action set. */
    function SetCast(on: bool): (r: BytesType)
      ensures r.minLen == minLen && r.maxLen == maxLen
      ensures forall a :: r.cast.GetAction(a) <==> on || a in cast.enabled
    {
      this.(cast := cast.(all := on))
    }

    /** Casts exactly for `actions` (unless casting is on for all). */
    function SetCastActions(actions: seq<Action>): (r: BytesType)
      ensures r.minLen == minLen && r.maxLen == maxLen
      ensures forall a :: r.cast.GetAction(a) <==> cast.all || a in actions
    {
      this.(cast := SetActionsOf(Some(cast), actions))
    }

    /** Stops casting for `actions`. */
    function UnsetCastActions(actions: seq<Action>): (r: BytesType)
      ensures r.minLen == minLen && r.maxLen == maxLen
      ensures forall a :: r.cast.GetAction(a) <==> cast.all || (a in cast.enabled && a !in actions)
    {
      this.(cast := UnsetActionsOf(Some(cast), actions).value)
    }
  }

  /** Go `Bytes()`: no cast, no bounds. */
  const NewBytes := BytesType(NoFlags, None, None)

  /**
   * Serializing bytes and parsing the text back with cast on gives the same
   * bytes: the bounds are checked on the same byte count both ways.
   */
  lemma SerializeParse(t: BytesType, b: seq<byte>)
    requires t.cast.GetAction(PARSE)
    requires t.Serialize(Bytes(b)).err.None?
    ensures t.Parse(t.Serialize(Bytes(b)).data) == LeafOutcome(Bytes(b), None)
  {
    Base64.DecodeEncode(b);
  }

  /** Without cast only a byte slice is read; with cast a byte becomes a one-byte slice. */
  lemma CastTable(b: byte)
    ensures NewBytes.Parse(Byte(b)) == LeafOutcome(Bytes([]), Some(AtPath(NotBytes)))
    ensures NewBytes.SetCast(true).Parse(Byte(b)) == LeafOutcome(Bytes([b]), None)
    ensures NewBytes.SetCast(true).Parse(Str("QUJD")) == LeafOutcome(Bytes([65, 66, 67]), None)
  {
    Base64.DecodeExample();
  }

  /** The bounds on the byte count are inclusive. */
  lemma BoundsInclusive(b: seq<byte>)
    requires |b| < 0x8000_0000_0000_0000
    ensures NewBytes.SetMinLen(|b|).SetMaxLen(|b|).Parse(Bytes(b)) == LeafOutcome(Bytes(b), None)
    ensures NewBytes.SetMaxLen(|b| - 1).Parse(Bytes(b)).err == Some(AtPath(TooLong(|b|, |b| - 1)))
  {
    var exact := BytesType(NoFlags, Some(|b|), Some(|b|));
    assert NewBytes.SetMinLen(|b|).SetMaxLen(|b|) == exact;
    var below := BytesType(NoFlags, Some(|b| - 1), None);
    assert NewBytes.SetMaxLen(|b| - 1) == below;
  }
}
