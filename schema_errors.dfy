// Errors reported while processing data: the causes a schema type can report
// and the aggregate of (path, cause) entries that composite types build up.
// The aggregate is generic in the path type so that the same definitions
// serve the engine (real, shared paths) and its specification (path values).
module SchemaErrors {
  import opened Wrappers
  import opened Values

  /** Why a value was refused; one variant per error the core creates. */
  datatype Cause =
    | NoSchemaTypeSet
    | InvalidAction(action: Action, typeName: string)
    | InvalidSchemaType
    | EmptyPath
    | NotAString
    | CannotCastToString
    | NotAnInt
    | CannotCastToInt
    | AtoiFailed(text: string)
    | BelowMin(value: int, min: int)
    | AboveMax(value: int, max: int)
    | NotABool
    | CannotCastToBool
    | NotBytes
    | CannotCastToBytes
    | Base64Failed
    | TooShort(length: int, min: int)
    | TooLong(length: int, max: int)
    | ListItemSchemaNil(listAction: Action)
    | NotAList(listAction: Action)
    | NotAnObject
    | MissingRequired(keys: seq<string>)
    | UnknownKey(key: string)
    | NoTypeMatch
    | MultipleTypesMatch
    | Custom(message: string)

  /** One element of an aggregate error: where it happened and why. */
  datatype Entry<P> = Entry(path: P, cause: Cause)

  /** Go's `*SchemaError`: an ordered list of entries. */
  datatype SchemaError<P> = SchemaError(errors: seq<Entry<P>>)
  {
    /** Adds one entry after all existing ones. */
    function Append(path: P, cause: Cause): (r: SchemaError<P>)
      ensures |r.errors| == |errors| + 1
      ensures r.errors[..|errors|] == errors && r.errors[|errors|] == Entry(path, cause)
    {
      SchemaError(errors + [Entry(path, cause)])
    }

    /** Adds every entry of `other` after all existing ones, keeping both orders. */
    function Merge(other: SchemaError<P>): (r: SchemaError<P>)
      ensures |r.errors| == |errors| + |other.errors|
      ensures r.errors[..|errors|] == errors && r.errors[|errors|..] == other.errors
    {
      SchemaError(errors + other.errors)
    }

    /** Merges `err`, first turning a plain error into a one-entry aggregate at `path`. */
    function MergeWithCast(path: P, err: Error<P>): (r: SchemaError<P>)
      ensures r.errors == errors + NewSchemaWithCasting(path, err).errors
    {
      Merge(NewSchemaWithCasting(path, err))
    }
  }

  /**
   * A Go `error` as the core sees it: either a plain error value, which carries
   * no path, or an aggregate `*SchemaError`.
   */
  datatype Error<P> = Plain(cause: Cause) | Aggregate(agg: SchemaError<P>)

  function NewSchemaError<P>(): (r: SchemaError<P>)
    ensures |r.errors| == 0
  {
    SchemaError([])
  }

  function NewSchemaErrorWithError<P>(path: P, cause: Cause): (r: SchemaError<P>)
    ensures r.errors == [Entry(path, cause)]
  {
    NewSchemaError().Append(path, cause)
  }

  /**
   * An aggregate keeps its own entries; any other error becomes the single
   * entry of a new aggregate at `path`.
   */
  function NewSchemaWithCasting<P>(path: P, err: Error<P>): (r: SchemaError<P>)
    ensures err.Aggregate? ==> r == err.agg
    ensures err.Plain? ==> r.errors == [Entry(path, err.cause)]
  {
    match err
    case Aggregate(agg) => SchemaError(agg.errors)
    case Plain(cause) => NewSchemaErrorWithError(path, cause)
  }

  /**
   * The accumulation step every composite type repeats: start an aggregate
   * from the first error, merge the later ones into it.
   */
  function Collect<P>(acc: Option<SchemaError<P>>, path: P, err: Error<P>): (r: SchemaError<P>)
    ensures r.errors == (if acc.Some? then acc.value.errors else []) + NewSchemaWithCasting(path, err).errors
  {
    match acc
    case Some(se) => se.MergeWithCast(path, err)
    case None => NewSchemaWithCasting(path, err)
  }

  /** What a process call returns: Go returns a value next to the error, too. */
  datatype Outcome<P> = Outcome(data: Data, err: Option<Error<P>>)

  /**
   * An error of a leaf type, before it is placed on a path: most leaf errors
   * are one-entry aggregates at the current path, a few are plain errors.
   */
  datatype LeafError = AtPath(cause: Cause) | Bare(cause: Cause)

  /** What a leaf type, a handler or a type outside the model returns. */
  datatype LeafOutcome = LeafOutcome(data: Data, err: Option<LeafError>)

  /** Places a leaf result on the path it was computed at. */
  function FromLeaf<P>(r: LeafOutcome, path: P): (o: Outcome<P>)
    ensures o.data == r.data
    ensures r.err.None? <==> o.err.None?
    ensures r.err.Some? && r.err.value.AtPath? ==> o.err == Some(Aggregate(SchemaError([Entry(path, r.err.value.cause)])))
    ensures r.err.Some? && r.err.value.Bare? ==> o.err == Some(Plain(r.err.value.cause))
  {
    match r.err
    case None => Outcome(r.data, None)
    case Some(AtPath(c)) => Outcome(r.data, Some(Aggregate(NewSchemaErrorWithError(path, c))))
    case Some(Bare(c)) => Outcome(r.data, Some(Plain(c)))
  }

  /** Why a JSON tree could not be decoded into a property, a schema or an envelope. */
  datatype DecodeError =
    | NotFlags
    | NotANumber
    | WrongShape(field: string)
    | MissingVersion
    | WrongVersion
    | MissingBody
    | NoTypeSet
    | UnknownType(id: string)
    | NoOriginalType
    | NilChild
    | EmptyFragment
    | NotAnEnvelope
}
