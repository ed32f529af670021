# pongo schema engine — a Dafny model

pongo is a Go library for describing the shape of dynamic data
(`interface{}` values: maps, lists, strings, numbers, byte slices) with a
tree of schema nodes, and for running that tree over a value in one of two
actions, `parse` or `serialize`. Each node wraps a schema type: the
combinators `allOf`, `anyOf` and `oneOf`, the containers `list` and
`object`, the leaves `string`, `int`, `bool` and `bytes`, and a decorator
that lets handlers take over a type for some actions. Running a type walks
the value with a data pointer, a stack of path frames each holding a key,
the original data, and an optional override that an `allOf` with chaining
on uses to hand one element's output to the next. Failures are collected
as a schema error: an aggregate of (path, cause) entries. Schemas travel
as JSON: each node is `{"$type", "$body", "$metadata"}`, the whole tree is
wrapped in a versioned envelope, and decoding resolves each `$type`
through a registry of factories.

The model follows the library file by file:

- `values.dfy`, `wrappers.dfy`: the dynamic value space (Go's `Data`, with
  the integer kinds the casts distinguish) and `Option`/`Result`.
- `schema_errors.dfy`: the aggregate error and its merge and cast rules.
- `path.dfy`, `data_pointer.dfy`: path frames as a class whose override is
  updated in place and shared between copies of a path, as the Go slice's
  backing array is; every push gets a frame of its own, where Go's `append`
  may reuse a slot of the parent's array (see "## Findings"); the data
  pointer over them.
- `properties.dfy`: the action flag, number and per-action properties as
  classes with their in-place setters, and their JSON forms.
- `string_type.dfy`, `int_type.dfy`, `bool_type.dfy`, `bytes_type.dfy`,
  with `text.dfy`, `strconv.dfy` and `base64.dfy` for the string length,
  decimal conversion and standard base64 the leaves rely on.
- `schemas.dfy`: nodes and schema types as values, their setters,
  metadata, children and type ids.
- `semantics.dfy`: what running a type means, stated on values; `engine.dfy`:
  the recursive process methods with their loops, each proved to compute
  that meaning (error entries up to order, since an object visits the keys
  of a Go map in no fixed order); `sequences.dfy` holds the facts about
  reordering the visit.
- `combinator_laws.dfy`, `container_laws.dfy`: what each combinator and
  container promises for every input, proved from the meaning.
- `codec.dfy`, `envelope.dfy`, `registry.dfy`: the JSON form of nodes and
  types, the envelope, and the factory registry with its global instance,
  with the round trip proved for every tree whose types are registered,
  reading a bytes type's lower bound under the corrected `minLen` tag (see
  "## Findings"; as written, Go drops that bound).

## Model

| member | source | states |
|---|---|---|
| SchemaErrors.SchemaError.Append | pongo/errors.go:70-77 | appending an entry keeps every earlier entry in place and adds exactly one entry, with the given path and cause, at the end |
| SchemaErrors.SchemaError.Merge | pongo/errors.go:79-82 | merging keeps the receiver's entries first and the other aggregate's entries after them, both in their order |
| SchemaErrors.SchemaError.MergeWithCast | pongo/errors.go:84-88 | merging an error adds the entries of its cast to an aggregate after the receiver's own entries |
| SchemaErrors.NewSchemaError | pongo/errors.go:22-25 | a new aggregate has no entries |
| SchemaErrors.NewSchemaErrorWithError | pongo/errors.go:27-30 | the new aggregate holds exactly one entry, with the given path and error |
| SchemaErrors.NewSchemaWithCasting | pongo/errors.go:32-46 | an aggregate error keeps its own entries; any other error becomes the single entry at the given path |
| SchemaErrors.Collect | pongo/type_all_of.go:35-41 | the accumulation step of the composite types: the entries so far, then the entries of the new error cast to an aggregate |
| SchemaErrors.FromLeaf | pongo/type_int.go:49-73 | a leaf type's result keeps its value; a failure becomes a one-entry aggregate at the current path or stays a plain error, as the leaf types return them |
| Paths.PathElement.constructor | pongo/path.go:21-30 | a new frame holds its key and data and has no override |
| Paths.PathElement.SetOverride | pongo/path.go:44-47 | the frame's override is set to the value and marked present |
| Paths.PathElement.UnsetOverride | pongo/path.go:49-52 | the frame's override is cleared to nil and marked absent |
| Paths.Path.Last | pongo/path.go:134-140 | there is no last frame exactly when the path is empty; otherwise it is the top frame |
| Paths.Path.Value | pongo/path.go:85-94 | the value of a path is nil when empty, else the top frame's override when set, else its original data |
| Paths.Path.OriginalValue | pongo/path.go:96-102 | the original value is nil for an empty path, else the top frame's data, whatever the override |
| Paths.Path.OverwrittenValue | pongo/path.go:104-110 | the flag is set exactly when the top frame has an override, and then the value is that override |
| Paths.Path.SetOverride | pongo/path.go:112-119 | an empty path reports an error and changes nothing; otherwise the top frame's override becomes the value, which the path then reads |
| Paths.Path.UnsetOverride | pongo/path.go:121-128 | an empty path reports an error; otherwise the override is dropped and the path reads its original value again |
| Paths.Path.Push | pongo/path.go:142-147 | the new path shares every existing frame and adds one fresh top frame without override, so it reads the pushed data; the receiver's frames are untouched (the corrected push of the finding below) |
| Paths.PushAsWritten | pongo/path.go:142-147 | Go's push: the new header sees the old frames plus the pushed one; with a spare slot it is written into the parent's own array (every other slot unchanged), otherwise a fresh array of grown capacity is used and the parent's is untouched |
| Paths.SiblingPushesAsWritten | pongo/path.go:142-147 | two paths pushed from one parent with a spare slot both end with the frame pushed second |
| Paths.SiblingFramesAsWritten | pongo/path.go:142-147 | walking {"a": {"b": ["x", "y"]}} with Go's push, the paths of the elements "[0]" and "[1]" are equal and both end with ("[1]", "y") |
| Paths.SiblingFramesKept | pongo/path.go:142-147 | the same walk with the corrected push: each element's path ends with its own frame, ("[0]", "x") and ("[1]", "y") |
| Paths.Path.Clone | pongo/path.go:149-154 | the clone has the same frames, so it reads and overrides the same top frame |
| Paths.NewPath | pongo/path.go:63-68 | the new path has exactly the given frames |
| DataPointers.DataPointer.Get | pongo/data.go:46-52 | a cursor reads the value of its path's top frame, its override when one is set |
| DataPointers.DataPointer.Push | pongo/data.go:36-40 | the pushed cursor keeps the root and the frames below and reads the pushed data from a fresh top frame (through the corrected `Path.Push`) |
| DataPointers.DataPointer.Clone | pongo/data.go:58-63 | the clone has the same root and the same frames |
| DataPointers.NewDataPointer | pongo/data.go:21-34 | a new cursor's root is the data; its path holds one frame with the data unless the data is nil, when it is empty |
| DataPointers.GetOrNull | pongo/data.go:46-52 | a nil cursor reads nil; any other reads its path's value |
| DataPointers.OverrideScenario | tests/data_test.go:9-99 | the pushed value and the root are read back; an override shows through the deeper cursor until it is unset, while the parent keeps its value and is one frame shorter |
| Utils.DiffMembership | pongo/utils.go:12-20 | an element is in the difference exactly when it is in the first list and not among the keys |
| Utils.DiffMultiplicity | pongo/utils.go:12-20 | every occurrence of a kept element survives and none of a dropped one |
| Utils.DiffAppend | pongo/utils.go:12-20 | the difference is taken element by element, so it keeps the order of the first list |
| Utils.ListMapDiff | pongo/utils.go:12-20 | the loop returns the elements of the list, in order, whose key is not in the map |
| Utils.ListDiff | pongo/utils.go:3-10 | the result is the list difference against the set of the second list's elements |
| Text.Utf8Len | pongo/type_string.go:47-52 | Go's `len` of a string counts UTF-8 bytes: at least one and at most four per character |
| Text.LessTotal | pongo/properties.go:174 | the byte-wise string order compares any two distinct strings |
| Text.LessTransitive | pongo/properties.go:174 | the byte-wise string order is transitive |
| Text.LessIrreflexive | pongo/properties.go:174 | no string is below itself |
| Text.StrictlySortedUnique | pongo/properties.go:174 | two strictly increasing lists with the same elements are the same list, so a sorted rendering of a set is unique |
| Text.SortedList | pongo/properties.go:172-175 | the elements of a set of names listed once each in increasing order, holding exactly the set's members |
| Text.Insert | pongo/properties.go:174 | inserting into a sorted list keeps it sorted and adds exactly the one element |
| Text.SortStrings | pongo/properties.go:174 | `sort.Strings` leaves a sorted permutation of its input |
| Text.SortedDistinct | pongo/properties.go:172-175 | a sorted list without repetitions is strictly increasing |
| Text.LowerAscii | pongo/type_bool.go:24 | an ASCII capital becomes its lower-case letter; every other character is unchanged |
| Strconv.NatText | pongo/type_string.go:26-28 | the decimal text of a natural number is non-empty, all digits and has no leading zero |
| Strconv.FormatInt | pongo/type_string.go:26-28 | the base-10 text of an integer is digits, preceded by a minus sign exactly for negatives |
| Strconv.Atoi | pongo/type_int.go:34-38 | a parsed value lies in the 64-bit range; a failure carries the refused text; the empty text fails |
| Strconv.DigitsValueNatText | pongo/type_int.go:34 | reading the digits of a number back gives the number |
| Strconv.AtoiFormatInt | pongo/type_int.go:34 | parsing the base-10 text of any 64-bit integer gives that integer back |
| Strconv.AtoiSigns | pongo/type_int.go:34 | a leading plus sign and leading zeros are accepted; a lone sign, an underscore or a trailing letter is refused |
| Strconv.AtoiRange | pongo/type_int.go:34-37 | the text of a number beyond the 64-bit range is refused |
| Base64.CharOf | pongo/type_bytes.go:29 | each 6-bit value has an alphabet character that decodes back to it and is neither padding nor a line break |
| Base64.Encode | pongo/type_bytes.go:29 | the standard encoding is four characters per started group of three bytes |
| Base64.DecodeQuadOf | pongo/type_bytes.go:36 | a full group of four characters decodes to its three bytes |
| Base64.DecodeTail1 | pongo/type_bytes.go:36 | a final group with two pads decodes to its one byte |
| Base64.DecodeTail2 | pongo/type_bytes.go:36 | a final group with one pad decodes to its two bytes |
| Base64.DecodeGroupsEncode | pongo/type_bytes.go:29-36 | decoding the groups of an encoding gives the bytes back |
| Base64.DecodeEncode | pongo/type_bytes.go:29-36 | decoding the Base64 text of any bytes gives the bytes back (what Serialize emits, a cast Parse reads) |
| Base64.StripAll | pongo/type_bytes.go:36 | a text without line breaks is decoded as it is |
| Base64.NotInjective | pongo/type_bytes.go:36 | decoding ignores the unused low bits of the last character, so two texts give the same byte |
| Base64.NewlinesSkipped | pongo/type_bytes.go:36 | carriage returns and line feeds inside the text are skipped |
| Base64.PaddingMisplaced | pongo/type_bytes.go:36-39 | padding anywhere but the end of the text, or a short group, is refused |
| Properties.FlagOn | pongo/properties.go:134-146 | a nil flag is off; a flag on for all actions is on for every action; otherwise it is on exactly for the enabled actions |
| Properties.SetAll | pongo/properties.go:119-125 | `Set` changes only the all-actions switch, allocating an empty flag for nil |
| Properties.SetActionsOf | pongo/properties.go:85-95 | `SetActions` makes the enabled set exactly the listed actions and keeps the all-actions switch |
| Properties.UnsetActionsOf | pongo/properties.go:106-113 | `UnsetActions` removes exactly the listed actions and keeps the switch; a nil flag stays nil |
| Properties.StrList | pongo/properties.go:166-176 | the JSON list holds each action name as a string, in the same order |
| Properties.UnmarshalFlags | pongo/properties.go:179-218 | a bool sets only the all-actions switch; a list of strings replaces the enabled set with its names and keeps the switch; every other shape, a list holding a non-string included, is refused |
| Properties.FlagsRoundTrip | pongo/properties.go:161-218 | decoding the JSON of a flag into a fresh flag restores it, except that an all-actions flag comes back without individual actions, which answers every action the same |
| Properties.ActionFlagProperty.constructor | pongo/properties.go:80-83 | a fresh flag is off for every action |
| Properties.ActionFlagProperty.SetActions | pongo/properties.go:85-95 | the same (or, for nil, a fresh) flag whose enabled set is exactly the listed actions, its switch unchanged |
| Properties.ActionFlagProperty.AppendActions | pongo/properties.go:97-104 | the listed actions are added to the enabled set; nothing else changes |
| Properties.ActionFlagProperty.UnsetActions | pongo/properties.go:106-113 | exactly the listed actions are removed; the switch is unchanged and a nil flag is left alone |
| Properties.ActionFlagProperty.ResetActions | pongo/properties.go:115-117 | the enabled set becomes empty and the switch is unchanged |
| Properties.ActionFlagProperty.Set | pongo/properties.go:119-125 | after `Set(all)` on the same (or a fresh) flag, `Get` reports `all` and the enabled set is kept |
| Properties.ActionFlagProperty.Get | pongo/properties.go:127-132 | the all-actions switch, false for nil |
| Properties.ActionFlagProperty.GetAction | pongo/properties.go:134-146 | false on nil, true whenever the switch is on, otherwise membership of the action |
| Properties.ActionFlagProperty.GetActions | pongo/properties.go:148-159 | the enabled actions, each exactly once; nothing for nil |
| Properties.ActionFlagProperty.MarshalJSON | pongo/properties.go:161-177 | `true` when on for all, `false` when nothing is enabled, otherwise the names sorted increasingly |
| Properties.ActionFlagProperty.UnmarshalJSON | pongo/properties.go:179-218 | the flag becomes the decoded value when the JSON is accepted, and is left unchanged with an error otherwise |
| Properties.LengthError | pongo/type_string.go:47-52 | the bounds are inclusive and either may be unset; a value below the minimum is reported as too short before the maximum is looked at |
| Properties.NumberGet | pongo/properties.go:239-244 | `Get` reports ok exactly when a number is set, and then returns it; unset reads as zero |
| Properties.NumberJSON | pongo/properties.go:246-248 | an unset number encodes as null, and only then |
| Properties.UnmarshalNumber | pongo/properties.go:250-259 | decoding succeeds exactly on null and on integers in Go's 64-bit `int` range; such an integer is stored as given, anything else (an out-of-range integer included) is refused |
| Properties.NumberRoundTrip | pongo/properties.go:246-259 | decoding the JSON of an optional 64-bit number gives it back |
| Properties.NumberProperty.constructor | pongo/properties.go:220-222 | a fresh number is unset |
| Properties.NumberProperty.Set | pongo/properties.go:224-231 | after `Set(i)` on the same (or, for nil, a fresh) property, `Get` returns `(i, true)` |
| Properties.NumberProperty.Unset | pongo/properties.go:233-237 | after `Unset`, `Get` is `(0, false)` and the JSON is null; nil is left alone |
| Properties.NumberProperty.Get | pongo/properties.go:239-244 | nil and unset read as `(0, false)`, a set number as `(n, true)` |
| Properties.NumberProperty.MarshalJSON | pongo/properties.go:246-248 | the JSON decodes back to the stored optional number |
| Properties.NumberProperty.UnmarshalJSON | pongo/properties.go:250-259 | accepted JSON becomes the stored number; refused JSON reports an error and leaves it unchanged |
| Properties.ActionProperty.constructor | pongo/properties.go:12-15 | a fresh property has neither default nor action map |
| Properties.ActionProperty.UnsetActions | pongo/properties.go:17-24 | the listed actions are deleted from the map, a missing map stays missing, the default is kept |
| Properties.ActionProperty.SetActionAsWritten | pongo/properties.go:26-32 | writing into the action map panics exactly when the property is nil or has no map yet; otherwise it stores the value and keeps the default |
| Properties.ActionProperty.SetAction | pongo/properties.go:26-32 | corrected: the map is allocated when missing, the value is stored for the action, the default is kept, and `GetAction` then returns the value |
| Properties.ActionProperty.SetDefault | pongo/properties.go:34-41 | the default becomes the value on the same (or, for nil, a fresh) property; the map is kept |
| Properties.ActionProperty.UnsetDefault | pongo/properties.go:43-47 | the default is cleared and the map kept; nil is left alone |
| Properties.ActionProperty.GetDefaultAsWritten | pongo/properties.go:49-58 | the stored default is returned but ok is always false |
| Properties.ActionProperty.GetDefault | pongo/properties.go:49-58 | corrected: ok exactly when a default is set, and then the default |
| Properties.ActionProperty.GetAction | pongo/properties.go:60-72 | nil gives nothing; the action's own entry wins; otherwise the default, which may be unset |
| Properties.SetActionOnNilProperty | pongo/properties.go:26-32 | `SetAction` on a nil property panics as written, and stores the value once the map is allocated |
| Properties.GetDefaultOfSetProperty | pongo/properties.go:49-58 | a default that is set reads as missing as written and as present once corrected |
| Properties.FlagScenario | tests/properties_test.go:12-80 | the flag's answers through set-for-parse, all-on (JSON `true`), back to parse only (JSON `["PARSE"]`), append serialize, reset |
| StringTypes.StringType.Process | pongo/type_string.go:19-55 | a failure is a path error with the empty string; a success is text within the inclusive byte-length bounds; a string is accepted as it is exactly when its length fits; without cast every non-string fails; with cast an `int`/`int64` becomes its base-10 text and any other value fails |
| StringTypes.StringType.SetCast | pongo/type_string.go:57-60 | casting is on for every action, or (off) only for the individually enabled ones; bounds are kept |
| StringTypes.StringType.SetCastActions | pongo/type_string.go:62-65 | casting is on exactly for the listed actions unless it was on for all; bounds are kept |
| StringTypes.StringType.UnsetCastActions | pongo/type_string.go:67-70 | casting stops for the listed actions unless it is on for all, and is otherwise as before; bounds are kept |
| StringTypes.StringType.SetMinLen | pongo/type_string.go:72-75 | a copy whose minimum length is set and whose other settings are kept |
| StringTypes.StringType.SetMaxLen | pongo/type_string.go:77-80 | a copy whose maximum length is set and whose other settings are kept |
| StringTypes.CastIntToText | pongo/type_string.go:26-28 | the text an integer is cast to parses back to the integer |
| StringTypes.BoundsInclusive | pongo/type_string.go:47-52 | a string whose byte length equals both bounds is accepted; a minimum one above its length rejects it as too short |
| IntTypes.ValueError | pongo/type_int.go:66-71 | inclusive bounds, either possibly unset; the minimum is checked first |
| IntTypes.IntType.Cast | pongo/type_int.go:23-44 | an `int`/`int64` passes as it is; a string is parsed in decimal and a failure carries the text; anything else cannot be cast |
| IntTypes.IntType.Process | pongo/type_int.go:46-74 | an action other than parse or serialize is an invalid-action error; otherwise the result is an `int` (zero on failure, with a path error); without cast only an `int` is accepted; with cast the cast value is checked; success exactly within the inclusive bounds |
| IntTypes.IntType.SetCast | pongo/type_int.go:76-79 | casting is on for every action, or (off) only for the individually enabled ones; bounds are kept |
| IntTypes.IntType.SetCastActions | pongo/type_int.go:81-84 | casting is on exactly for the listed actions unless it was on for all; bounds are kept |
| IntTypes.IntType.UnsetCastActions | pongo/type_int.go:86-89 | casting stops for the listed actions unless it is on for all; bounds are kept |
| IntTypes.IntType.SetMin | pongo/type_int.go:91-94 | a copy whose minimum is set and whose other settings are kept |
| IntTypes.IntType.SetMax | pongo/type_int.go:96-99 | a copy whose maximum is set and whose other settings are kept |
| IntTypes.TextCastsBack | pongo/type_int.go:34-38 | with cast, the decimal text of a 64-bit integer is accepted exactly when the integer is in bounds, and gives the integer |
| IntTypes.BoundsInclusive | tests/type_int_test.go:17-65 | `SetMin(1).SetMax(1)` accepts 1; with bounds 1 to 3, 0 is below the minimum and 4 above the maximum |
| IntTypes.CastNeeded | pongo/type_int.go:53-64 | without cast an `int64` is refused; with cast it is accepted, and malformed text reports the parse failure |
| BoolTypes.CastBool | pongo/type_bool.go:21-40 | text casts exactly when it is "true" or "false" in any letter case; a byte is true when non-zero; a byte slice when longer than one or a single non-zero byte; an integer is false only when it is a Go `int` zero; anything else cannot be cast |
| BoolTypes.BoolType.Process | pongo/type_bool.go:17-58 | a failure is a path error with nil; without cast only a bool passes, with cast the cast table decides; a value that passes is returned for parse and serialize and gives an invalid-action error for any other action |
| BoolTypes.BoolTypeRef.constructor | pongo/type_bool.go:13-15 | a new bool type has no cast |
| BoolTypes.BoolTypeRef.SetCast | pongo/type_bool.go:60-63 | in place, casting is on for every action, or (off) only for the individually enabled ones |
| BoolTypes.BoolTypeRef.SetCastActions | pongo/type_bool.go:65-68 | in place, casting is on exactly for the listed actions unless it was on for all |
| BoolTypes.BoolTypeRef.UnsetCastActions | pongo/type_bool.go:70-73 | in place, casting stops for the listed actions unless it is on for all |
| BoolTypes.CastRefusesBool | pongo/type_bool.go:21-40 | with cast on, the cast table has no bool case, so a real bool is refused |
| BoolTypes.ZeroOfOtherKinds | pongo/type_bool.go:36-37 | with cast, zero of `int64`, `uint` or `uint64` casts to true and only an `int` zero to false |
| BoolTypes.CaseInsensitive | pongo/type_bool.go:24-31 | "False" casts to false, "TRUE" to true, and "yes" is refused |
| BytesTypes.BytesType.Validate | pongo/type_bytes.go:32-64 | a result is within the inclusive count bounds; a byte slice passes as it is when it fits; without cast nothing else passes; with cast a byte becomes a one-byte slice, text is Base64-decoded (bad text is an error) and anything else cannot be cast |
| BytesTypes.BytesType.Parse | pongo/type_bytes.go:19-21 | the validated bytes, or a path error with an empty slice |
| BytesTypes.BytesType.Serialize | pongo/type_bytes.go:23-30 | succeeds exactly when the bytes validate, with text that Base64-decodes to them; a failure is a path error with nil |
| BytesTypes.BytesType.Process | pongo/type_bytes.go:19-30 | parse runs `Parse` and serialize runs `Serialize` (the dispatch itself is part of the model, see below) |
| BytesTypes.BytesType.SetMinLen | pongo/type_bytes.go:66-69 | a copy whose minimum count is set and whose other settings are kept |
| BytesTypes.BytesType.SetMaxLen | pongo/type_bytes.go:71-74 | a copy whose maximum count is set and whose other settings are kept |
| BytesTypes.BytesType.SetCast | pongo/type_bytes.go:76-79 | casting is on for every action, or (off) for the individually enabled ones; bounds are kept |
| BytesTypes.BytesType.SetCastActions | pongo/type_bytes.go:81-84 | casting is on exactly for the listed actions unless it was on for all |
| BytesTypes.BytesType.UnsetCastActions | pongo/type_bytes.go:86-89 | casting stops for the listed actions unless it is on for all |
| BytesTypes.SerializeParse | pongo/type_bytes.go:19-64 | parsing (with cast) the text that serialize produced gives the bytes back |
| BytesTypes.CastTable | tests/type_bytes_test.go:17-44 | without cast a single byte is refused; with cast it becomes a one-byte slice and Base64 text is decoded |
| BytesTypes.BoundsInclusive | pongo/type_bytes.go:56-61 | a slice whose count equals both bounds is accepted; a maximum one below its count rejects it as too long |
| Schemas.Node.GetMetadata | pongo/schema.go:220-222 | a node's metadata lookup is the metadata map's lookup |
| Schemas.Node.SetMetadata | pongo/schema.go:224-227 | the key then reads back the value, every other key reads as before, the type is kept |
| Schemas.Node.SetType | pongo/schema.go:58-60 | the node holds the new type and keeps its metadata |
| Schemas.SchemaType.SetMinLen | pongo/type_list.go:71-74 | a copy of the list type with the minimum set and item and maximum kept |
| Schemas.SchemaType.SetMaxLen | pongo/type_list.go:76-79 | a copy of the list type with the maximum set and item and minimum kept |
| Schemas.SchemaType.Require | pongo/type_object.go:73-76 | a copy of the object type whose required keys are replaced by the given ones, properties kept |
| Schemas.SchemaType.SetChain | pongo/type_all_of.go:51-54 | a copy chaining for every action, or (off) only for the individually enabled ones; elements kept |
| Schemas.SchemaType.SetChainActions | pongo/type_all_of.go:56-59 | a copy chaining exactly for the listed actions unless chaining is on for all |
| Schemas.SchemaType.UnsetChainActions | pongo/type_all_of.go:61-64 | a copy no longer chaining for the listed actions unless chaining is on for all |
| Schemas.MetadataGet | pongo/schema.go:231-237 | nil metadata holds nothing; ok exactly when the key is present, with its value, else the empty string |
| Schemas.MetadataSet | pongo/schema.go:239-246 | the key reads back the value and every other key reads as before; nil metadata is allocated |
| Schemas.MetadataScenario | tests/schema_test.go:82-98 | a node without metadata reads nothing, reads a set value back, and a later set overwrites it |
| Schemas.Schema | pongo/schema.go:37-44 | a node is returned as it is; any other type is wrapped in a new node without metadata |
| Schemas.SchemaIdempotent | pongo/schema.go:37-44 | wrapping a node again gives the same node |
| Schemas.Nodes | pongo/schema.go:187-198 | one entry per given type, in order, nil kept as nil and each type wrapped |
| Schemas.SchemaList | pongo/schema.go:187-198 | the loop builds exactly that list |
| Schemas.NodeMap | pongo/schema.go:175-186 | every key kept, nil kept as nil and each type wrapped |
| Schemas.SchemaMap | pongo/schema.go:175-186 | the loop, visiting keys in any order, builds exactly that map |
| Schemas.NewAllOf | pongo/type_all_of.go:11-15 | the wrapped elements, chaining off |
| Schemas.NewAnyOf | pongo/type_any_of.go:9-13 | the wrapped elements |
| Schemas.NewOneOf | pongo/type_one_of.go:11-15 | the wrapped elements |
| Schemas.NewList | pongo/type_list.go:14-21 | no bounds; a nil item type stays nil, any other is wrapped |
| Schemas.NewObject | pongo/type_object.go:13-18 | the wrapped properties and no required keys |
| Schemas.Children | pongo/schema.go:148-160 | no type is an error; combinators give their elements, a list exactly its item, an object one entry per property (in any order); every other type has none |
| Schemas.SchemaTypeID | pongo/schema_interface.go:91-104 | a custom id, or its error, wins; a decorator without a type is invalid; other types get their Go type name without the leading `*` |
| Schemas.DecoratedId | pongo/decorator.go:58-65 | a decorator, even a decorated decorator, has the id of the type it decorates |
| Schemas.DerivedId | tests/schema_marshal_test.go:67-77 | a type without its own id is named by its package-qualified type name |
| Schemas.Decorator.constructor | pongo/decorator.go:28-34 | a new decorator wraps the type with no handlers and no default |
| Schemas.Decorator.SetDefaultHandler | pongo/decorator.go:36-39 | the default handler is set and nothing else changes |
| Schemas.Decorator.UnsetDefaultHandler | pongo/decorator.go:41-43 | the default handler is cleared and nothing else changes |
| Schemas.Decorator.SetHandlers | pongo/decorator.go:45-50 | each listed action now maps to the handler; other actions keep theirs |
| Schemas.Decorator.UnsetHandlers | pongo/decorator.go:52-56 | exactly the listed actions lose their handlers; the others keep theirs |
| Sequences.ConcatMapAppend | pongo/type_object.go:42-64 | collecting entries key by key over two lists in turn gives the two collections one after the other |
| Sequences.ConcatMapPermutation | pongo/type_object.go:42-64 | visiting the same keys in another order collects the same entries, rearranged |
| Sequences.ConcatMapHas | pongo/type_object.go:42-64 | an entry that one visited key contributes is among the collected entries |
| Sequences.DistinctOnce | pongo/type_object.go:42 | a list without repetitions holds each element once |
| Sequences.SameSetSameMultiset | pongo/type_object.go:42 | two visits of the same keys, each key once, are rearrangements of each other |
| Semantics.AnyOfStays | pongo/type_any_of.go:20-22 | once an element succeeded the loop has returned, so later elements change nothing |
| Semantics.OneOfStays | pongo/type_one_of.go:30-32 | once a second element succeeded the loop has returned, so later elements change nothing |
| Semantics.ObjectOutStep | pongo/type_object.go:53-58 | visiting one more key stores its property's output under parse and serialize, and nothing under any other action or for an unknown key |
| Semantics.EraseEntries | pongo/errors.go:64-68 | each error entry keeps its cause and its path is read as the list of frames it names |
| Semantics.CastConforms | pongo/errors.go:32-46 | casting an error gives the same entries whether paths are frames or their contents |
| Semantics.CollectConforms | pongo/type_all_of.go:23-27 | accumulating agreeing errors keeps the aggregates in agreement |
| Semantics.FromLeafConforms | pongo/type_int.go:49-73 | a leaf's result placed on a path agrees with it placed on the path's contents |
| Engine.ProcessNode | pongo/schema.go:62-68 | the node's process returns what its specification says (up to the order of error entries) and leaves the top frame's override as specified |
| Engine.ParseNode | pongo/schema.go:46-48 | parse is process with the parse action |
| Engine.SerializeNode | pongo/schema.go:50-52 | serialize is process with the serialize action |
| Engine.ProcessType | pongo/schema.go:22-24 | each schema type's process returns what its specification says and leaves the override as specified |
| Engine.ProcessLeaf | pongo/type_string.go:19-55 | a type without children reads the value under the cursor and leaves the override alone |
| Engine.Leaf | pongo/errors.go:27-30 | a leaf's path error becomes a one-entry aggregate at the cursor's path |
| Engine.FailAt | pongo/errors.go:27-30 | a nil value with a one-entry aggregate at the cursor's path |
| Engine.ProcessDecorated | pongo/decorator.go:67-78 | the decorator's process follows its dispatch specification |
| Engine.RunMember | pongo/type_all_of.go:21 | an element of a combinator runs on the same cursor, as specified |
| Engine.ProcessAllOf | pongo/type_all_of.go:17-49 | the loop over every element returns the specified result and leaves the chained override as specified |
| Engine.AllOfMember | pongo/type_all_of.go:21-41 | one iteration: the element's output, its error merged into the aggregate, and on success with chain on the override written |
| Engine.ProcessAnyOf | pongo/type_any_of.go:15-32 | the loop returns the specified result: the first success, else the error it kept |
| Engine.AnyOfMember | pongo/type_any_of.go:19-28 | one iteration: a success ends the loop with its output; a failure updates the kept error as the loop does |
| Engine.AnyOfFailure | pongo/type_any_of.go:24-28 | after a failure the engine's kept aggregate and error agree with the specified ones |
| Engine.ProcessOneOf | pongo/type_one_of.go:17-43 | the loop returns the specified result: the only success, or the ambiguous or no-match error |
| Engine.OneOfMember | pongo/type_one_of.go:22-35 | one iteration: a second success reports ambiguity at once; a first is kept |
| Engine.ProcessChild | pongo/type_list.go:46-56 | a child runs on a pushed cursor whose top frame is the key and value, with no override |
| Engine.VisitOnce | pongo/type_object.go:42 | visiting a remaining key keeps every key visited at most once |
| Engine.VisitOrder | pongo/type_object.go:42 | visiting every key once, in any order, collects the entries of the sorted visit, rearranged |
| Engine.ProcessList | pongo/type_list.go:23-69 | the list's process returns the specified outcome, up to the order of error entries |
| Engine.ListElements | pongo/type_list.go:43-62 | the element loop collects the specified outputs and entries |
| Engine.ListElement | pongo/type_list.go:46-61 | one element: its output appended under parse and serialize, its causes merged |
| Engine.ProcessObject | pongo/type_object.go:20-71 | the object's process returns the specified outcome, with error entries in any order |
| Engine.ObjectKeys | pongo/type_object.go:41-64 | the key loop, in whatever order the map yields keys, builds the specified output and the sorted visit's entries, rearranged |
| Engine.KeysStart | pongo/type_object.go:41-42 | before the loop no key is visited and nothing is collected |
| Engine.KeysDone | pongo/type_object.go:64-70 | after every key, the output and entries are those of the whole visit |
| Engine.ObjectKey | pongo/type_object.go:44-63 | one key: an unknown key adds one cause; a known one stores its property's output and merges its causes |
| Engine.KeysNext | pongo/type_object.go:42-64 | visiting one more key keeps the loop's invariant |
| Engine.Process | pongo/schema.go:286-290 | the type runs on a fresh cursor over the data |
| Engine.Parse | pongo/schema.go:274-278 | process with the parse action from a fresh cursor |
| Engine.Serialize | pongo/schema.go:280-284 | process with the serialize action from a fresh cursor |
| CombinatorLaws.AllOfFold | pongo/type_all_of.go:20-42 | after any number of elements: there is an aggregate exactly when one failed; it holds every failed element's entries in order; the kept output is the last element's |
| CombinatorLaws.AllOfFoldFailed | pongo/type_all_of.go:22-40 | the aggregate exists exactly when some element so far failed |
| CombinatorLaws.StepEntries | pongo/type_all_of.go:22-40 | one step adds exactly its run's entries to the aggregate |
| CombinatorLaws.AllOfFoldEntries | pongo/type_all_of.go:22-40 | the aggregate holds the entries of the elements so far, in order |
| CombinatorLaws.AllOfEntriesStep | pongo/type_all_of.go:22-40 | the induction step of the entry accumulation |
| CombinatorLaws.AllOfFoldStep | pongo/type_all_of.go:21-41 | a failing element starts or extends the aggregate with its entries; any other leaves it |
| CombinatorLaws.AllOfOutcome | pongo/type_all_of.go:17-49 | allOf succeeds exactly when no element fails, with the last element's output; otherwise nil with every failing element's entries; with chain on and a non-empty path the last success stays as the frame's override; no elements give nil and nothing |
| CombinatorLaws.AllOfChainFeeds | pongo/type_all_of.go:32-41 | with chaining on and a frame, a successful element's output is what the next element reads; with chaining off the next element reads the override the earlier ones left |
| CombinatorLaws.AllOfChainScenario | tests/type_all_of_test.go:32-64 | int, then string with cast, then string of at least 2 bytes: on 123 with chaining it succeeds with "123"; without chaining it fails |
| CombinatorLaws.AnyOfFailures | pongo/type_any_of.go:23-29 | while every element fails, the kept aggregate is the first failure's, and the error is the first failure merged with the latest |
| CombinatorLaws.AnyOfAllFail | pongo/type_any_of.go:15-32 | when all fail: no elements give nil and nothing; one gives that element's error unchanged; two or more give the first's causes followed by the last's only |
| CombinatorLaws.AnyOfSamePrefix | pongo/type_any_of.go:18-29 | the loop's state depends only on the elements visited so far |
| CombinatorLaws.AnyOfFirstSuccess | pongo/type_any_of.go:18-22 | the first success is returned and the later elements are not evaluated: changing them changes nothing |
| CombinatorLaws.AnyOfDoneAt | pongo/type_any_of.go:20-22 | the first success ends the loop with its output |
| CombinatorLaws.AnyOfEvalDone | pongo/type_any_of.go:20-22 | once the loop is done its state is the anyOf's result |
| CombinatorLaws.AnyOfNoneDone | pongo/type_any_of.go:18-29 | while every element has failed the loop goes on |
| CombinatorLaws.OneOfCounts | pongo/type_one_of.go:21-36 | after any number of elements, one success is recorded exactly when there was at least one and ambiguity exactly when there were two, and the kept output is the only success's |
| CombinatorLaws.SuccessCounted | pongo/type_one_of.go:29-35 | a succeeding element is counted |
| CombinatorLaws.OneOfOutcome | pongo/type_one_of.go:17-43 | no success gives the single no-match entry; two or more the single ambiguity entry; exactly one gives its output without error |
| ContainerLaws.ListFold | pongo/type_list.go:43-62 | after `i` elements, under parse and serialize the outputs are the elements' outputs in order; every failing element's causes are aggregated in order |
| ContainerLaws.ListFoldOut | pongo/type_list.go:45-56 | the outputs collected element by element; other actions collect none |
| ContainerLaws.ListFoldAgg | pongo/type_list.go:58-61 | the causes aggregated element by element |
| ContainerLaws.ListOutcome | pongo/type_list.go:23-69 | a nil item type, then a non-list, then a length below the minimum or above the maximum each fail with one error before any element runs; otherwise any failing element gives nil and all the causes, and success gives one output per element in order |
| ContainerLaws.ListQuiet | pongo/type_list.go:49-56 | under an action other than parse and serialize no element contributes anything |
| ContainerLaws.ObjectChecks | pongo/type_object.go:20-39 | a non-map fails with one error; a missing required key fails with one error listing exactly the missing keys (the difference of the required list and the input keys, with multiplicity) and no property runs; otherwise every key is visited |
| ContainerLaws.ObjectMissing | pongo/type_object.go:29-39 | one missing required key is enough for the single missing-keys error |
| ContainerLaws.ObjectPresent | pongo/type_object.go:41-70 | with every required key present, the object visits the input's keys |
| ContainerLaws.ObjectUnknownKey | pongo/type_object.go:44-48 | an input key without a property contributes exactly one entry, an unknown-key cause at the object's path, and fails the object with a nil value |
| ContainerLaws.ObjectSuccess | pongo/type_object.go:41-70 | on success every input key has a property, and under parse and serialize the output has exactly the input's keys, each the property's output |
| ContainerLaws.DecoratorDispatch | pongo/decorator.go:67-78 | the action's handler wins; else the default handler; else the wrapped type processes, and a missing one gives the no-type error |
| ContainerLaws.NodeWithoutType | pongo/schema.go:62-68 | a node without a type fails with the no-type error |
| Codec.NumberField | pongo/properties.go:250-259 | an absent number member keeps the current value; a present one is decoded as a number property (null unsets; an integer outside the 64-bit range is refused) |
| Codec.FlagsPointerField | pongo/type_string.go:10 | an absent flag member keeps the pointer; null makes it nil |
| Codec.FlagsValueField | pongo/type_bytes.go:10 | an absent flag member held by value keeps the flag |
| Codec.MetadataJSON | pongo/schema_marshal.go:25 | node metadata is written as an object with exactly its keys |
| Codec.MetadataOf | pongo/schema.go:108 | metadata read back from an object of strings has exactly its keys |
| Codec.MetadataRoundTrip | pongo/schema.go:88 | metadata written and read back is the same metadata |
| Codec.StringsOf | pongo/type_object.go:10 | a JSON list of strings read back gives the same strings in order |
| Codec.BytesFromJSONAsWritten | pongo/type_bytes.go:12 | with the decoder's tag "mixLen", a "minLen" member changes nothing about the lower bound |
| Codec.FlagsBack | pongo/properties.go:161-218 | a flag in normal form decodes from its JSON into a fresh flag |
| Codec.FlagsMemberBack | pongo/type_string.go:10 | a flag member written by the encoder decodes back into a nil pointer |
| Codec.NumberMemberBack | pongo/properties.go:246-259 | a number member written by the encoder (left out when unset) decodes back |
| Codec.StringRoundTrip | pongo/type_string.go:9-13 | a string type decodes from its JSON into the factory's fresh value; empty JSON means the fresh value |
| Codec.IntRoundTrip | pongo/type_int.go:9-13 | an int type decodes from its JSON into the factory's fresh value; empty JSON means the fresh value |
| Codec.BoolRoundTrip | pongo/type_bool.go:9-11 | a bool type decodes from its JSON into the factory's fresh value; empty JSON means the fresh value |
| Codec.BytesMembersBack | pongo/type_bytes.go:99-114 | the bytes JSON read with the lower bound under another name gives the type without its lower bound |
| Codec.BytesCastBack | pongo/type_bytes.go:99-114 | the bytes flag is written only when on for something and reads back |
| Codec.BytesBoundsBack | pongo/type_bytes.go:99-114 | the upper bound reads back; the lower bound reads back only under "minLen" |
| Codec.BytesRoundTrip | pongo/type_bytes.go:99-114 | with the decoder's tag matching the encoder's, a bytes type decodes back to itself |
| Codec.BytesLoseMinLen | pongo/type_bytes.go:12 | as written, every bytes type decodes back with its lower bound unset |
| Codec.BytesMinLenExhibit | pongo/type_bytes.go:12 | a bytes type with lower bound 2 encodes as {"minLen": 2} and decodes back without the bound as written, with it corrected |
| Codec.EncodeNode | pongo/schema.go:70-91 | a node without a type fails; otherwise "$type" is the id, "$body" the type's JSON unless it is {}, "$metadata" present exactly when there is metadata |
| Codec.ObjectBody | pongo/type_object.go:82-91 | an object's JSON holds its properties, and "required" exactly when the list is non-empty |
| Codec.EncodeElements | pongo/type_all_of.go:7 | a combinator's encoded elements are one per element |
| Codec.EncodeProperties | pongo/type_object.go:9 | an object's encoded properties have exactly its keys |
| Codec.DecodeNode | pongo/schema.go:98-142 | a node decodes only when "$type" is a string the registry knows, and the result has a type |
| Codec.DecodeChild | pongo/schema.go:133-139 | in the first phase a child is left holding its JSON (null gives no child); in the second phase a nil child fails |
| Codec.KeptChildren | pongo/schema.go:148-160 | a factory's pre-set children are no error only when there are none |
| Codec.KeptChild | pongo/schema.go:148-160 | in the first phase a pre-set child is kept as is |
| Codec.NoBody | pongo/schema.go:119-124 | without "$body" the factory's value is used as is |
| Codec.DecodeType | pongo/schema.go:119-139 | decoding a body keeps the factory's kind of type |
| Codec.DecodeMembers | pongo/schema.go:119-124 | decoding the members of a built-in type keeps its kind (a bytes body is read with the corrected tag `minLen`) |
| Codec.DecodeElementList | pongo/type_all_of.go:6-9 | a combinator's body decodes into a combinator of the same kind |
| Codec.DecodeList | pongo/type_list.go:8-12 | a list's body decodes into a list |
| Codec.DecodeObject | pongo/type_object.go:8-11 | an object's body decodes into an object |
| Codec.ChildShapeInPhaseTwo | pongo/schema.go:92-105 | a child's JSON is only kept in the first phase and checked when the second decodes it: under a decorator (pongo/decorator.go:17-22) an element 5 stays pending, while the plain allOf factory fails on it |
| Codec.DecodeElements | pongo/schema.go:133-139 | the decoded elements are one per JSON element |
| Codec.DecodeProperties | pongo/schema.go:133-139 | the decoded properties have exactly the visited keys |
| Codec.NodeRoundTrip | tests/schema_marshal_test.go:13-58 | every node whose types are all registered with their built-in factories encodes and decodes back to itself (with the corrected bytes tag `minLen`) |
| Codec.TypeRoundTrip | pongo/schema.go:70-142 | a registered type's JSON, decoded into the factory's value (or the value itself when the JSON is {}), gives the type back |
| Codec.ElementsInduction | pongo/schema.go:133-139 | each element of an encodable combinator round-trips |
| Codec.PropertiesInduction | pongo/schema.go:133-139 | each property of an encodable object round-trips |
| Codec.LeafRoundTrip | pongo/type_string.go:9-13 | each leaf type round-trips through its JSON |
| Codec.StringLeafBack | pongo/type_string.go:9-13 | a string leaf round-trips |
| Codec.IntLeafBack | pongo/type_int.go:9-13 | an int leaf round-trips |
| Codec.BoolLeafBack | pongo/type_bool.go:9-11 | a bool leaf round-trips |
| Codec.BytesLeafBack | pongo/type_bytes.go:99-114 | a bytes leaf round-trips, with the encoder's tag |
| Codec.ElementListRoundTrip | pongo/type_all_of.go:6-9 | a combinator whose elements round-trip round-trips itself, chain flag included |
| Codec.ElementsEncoded | pongo/type_all_of.go:6-9 | a combinator's JSON lists one object per element, each decoding to that element, and the chain flag |
| Codec.ElementsJSON | pongo/type_all_of.go:6-9 | a combinator's JSON holds its encoded elements and, for allOf, the chain flag |
| Codec.EncodeElementsBack | pongo/type_all_of.go:7 | each encoded element is that element's node encoding |
| Codec.DecodeElementsBack | pongo/schema.go:133-139 | JSON elements that each decode to an element decode to the list of elements |
| Codec.ElementListBack | pongo/type_all_of.go:6-9 | a body whose elements and chain decode to a combinator's decodes to that combinator |
| Codec.ListRoundTrip | pongo/type_list.go:8-12 | a list whose item round-trips round-trips, bounds included |
| Codec.ListBack | pongo/type_list.go:8-12 | a body whose item and bounds decode to a list's decodes to that list |
| Codec.ObjectRoundTrip | pongo/type_object.go:82-91 | an object whose properties round-trip round-trips, required list included |
| Codec.ObjectEncoded | pongo/type_object.go:82-91 | an object's JSON has exactly its property keys, each decoding to its node, and "required" exactly when non-empty |
| Codec.PropertiesEncoded | pongo/type_object.go:9 | the encoded properties have the object's keys and each decodes to its node |
| Codec.EncodePropertiesBack | pongo/type_object.go:9 | each encoded property visited decodes to its node |
| Codec.EncodedProperty | pongo/type_object.go:9 | a nil property is written as null, another as its node's encoding |
| Codec.PropertiesEncode | pongo/type_object.go:9 | properties encode when each present node does |
| Codec.PropertiesBack | pongo/schema.go:133-139 | JSON properties that each decode to a node decode to the object's properties |
| Codec.ObjectBack | pongo/type_object.go:8-11 | a body whose properties and required list decode to an object's decodes to that object |
| Codec.DecodePropertiesBack | pongo/schema.go:133-139 | the remaining keys decode to the object's properties on those keys |
| Envelopes.EncodeEnvelope | pongo/schema_pongoschema_marshal.go:12-21 | the envelope fails exactly when the root node cannot be encoded; it holds version "1.0", the body, and metadata exactly when given |
| Envelopes.HeaderError | pongo/schema_pongoschema_marshal.go:33-65 | the header checks in order: an object, a version, version "1.0", a body, well-formed metadata; none fails exactly when all hold |
| Envelopes.DecodeEnvelope | pongo/schema_pongoschema_marshal.go:33-68 | a bad header fails with its error; otherwise decoding succeeds exactly when the body node decodes, and metadata is returned exactly when present |
| Envelopes.HeaderBeforeRegistry | pongo/schema_pongoschema_marshal.go:41-48 | a bad header fails the same way whatever the registry holds |
| Envelopes.EnvelopeRoundTrip | tests/schema_marshal_test.go:13-58 | a schema's envelope decodes back to the schema and its metadata (with the corrected bytes tag `minLen`) |
| Envelopes.UnregisteredRoot | pongo/schema.go:115-118 | a root whose type id is not registered fails with that id |
| Envelopes.ObjectEncodes | pongo/type_object.go:82-91 | an object encodes when each property node does |
| Envelopes.DecodePropertiesFails | pongo/schema.go:133-139 | a property whose node fails to decode fails the whole decoding |
| Envelopes.ObjectEncodedAt | pongo/type_object.go:82-91 | an object's JSON holds each property's node encoding under its key |
| Envelopes.ObjectFailsAt | pongo/schema.go:133-139 | an object body with an undecodable property node fails to decode |
| Envelopes.UnregisteredProperty | tests/schema_marshal_test.go:82-123 | an object with a property of an unregistered type encodes but does not decode |
| Registries.Registrations | pongo/schema_interface.go:118-126 | registering factories fails exactly when one has no id, with that one's error; otherwise the last factory is under its id |
| Registries.IdsOf | pongo/schema_interface.go:118-126 | the ids of the factories, in order |
| Registries.RegisteredKeys | pongo/schema_interface.go:78-89 | the registered ids are those present before and those of the factories |
| Registries.Overwrite | pongo/schema_pongoschema_marshal.go:94-99 | registering one more factory overwrites its id's entry |
| Registries.DefaultFactories | pongo/schema_marshal.go:82-94 | the default list has eleven factories |
| Registries.DefaultIdsDistinct | pongo/schema_marshal.go:82-94 | no id appears twice in the default list |
| Registries.DefaultEntries | pongo/schema_marshal.go:82-94 | the default content has exactly the eleven ids, each with its factory |
| Registries.DefaultFactoryIds | pongo/schema_marshal.go:82-94 | the default factories answer with the eleven ids |
| Registries.DefaultRegistrations | pongo/schema_marshal.go:96-103 | registering the default list into an empty map gives exactly the default content |
| Registries.DefaultRegistersBuiltins | pongo/schema_marshal.go:82-94 | the default content resolves every built-in type to its built-in factory |
| Registries.BuiltinIndex | pongo/schema_marshal.go:82-94 | every built-in id has a position in the default list |
| Registries.BuiltinAt | pongo/schema_marshal.go:82-94 | each default factory other than float64 and datetime is its id's built-in factory |
| Registries.RegisteredOnce | pongo/schema_interface.go:118-126 | an id registered by one factory only holds that factory |
| Registries.FactoryTable.constructor | pongo/schema_pongoschema_marshal.go:76-80 | a new table is empty |
| Registries.Registry.constructor | pongo/schema_pongoschema_marshal.go:76-80 | a registry over the given table |
| Registries.Registry.Get | pongo/schema_pongoschema_marshal.go:86-92 | nil exactly for an unknown id, otherwise the factory's value |
| Registries.Registry.Set | pongo/schema_pongoschema_marshal.go:94-99 | a factory without id fails and changes nothing; otherwise its id's entry is replaced in the shared table |
| Registries.Registry.Clone | pongo/schema_pongoschema_marshal.go:101-108 | the clone has a new table with the same entries |
| Registries.Default | pongo/schema_interface.go:78-89 | the default registry fails exactly when registration does, and otherwise holds what registration gives |
| Registries.DefaultContent | pongo/schema_marshal.go:96-103 | the default registry holds exactly the default content |
| Registries.SetOnClone | pongo/schema_pongoschema_marshal.go:101-108 | setting a factory on a clone leaves the original unchanged; the clone differs only at that id |
| Registries.GlobalRegistry.constructor | pongo/schema_pongoschema_marshal.go:110-124 | the global starts with the default content |
| Registries.GlobalRegistry.Get | pongo/schema_pongoschema_marshal.go:126-128 | the global is handed out as a clone |
| Registries.GlobalRegistry.Set | pongo/schema_pongoschema_marshal.go:130-132 | the global becomes the given registry itself |
| Registries.RestrictGlobal | tests/schema_marshal_test.go:82-123 | after restriction the registry used holds only int, string and object |
| Registries.RestrictedAccepts | tests/schema_marshal_test.go:82-123 | with only int, string and object, an object of an int and a string round-trips |
| Registries.RestrictedRejects | tests/schema_marshal_test.go:82-123 | with only int, string and object, an object with a float64 property encodes but does not decode |
| Registries.MixedObjectFacts | tests/schema_marshal_test.go:82-123 | the mixed object encodes, its own id is registered, its float64 property's is not |
| Registries.MixedObjectRegistered | tests/schema_marshal_test.go:82-123 | "object" is registered with the built-in factory |
| Registries.MixedObjectEncodes | tests/schema_marshal_test.go:82-123 | both properties encode, so the object does |
| Registries.RestrictedHasObject | tests/schema_marshal_test.go:82-123 | the restricted registry has the built-in object factory and no float64 |
| Registries.NodeEncodes | pongo/schema.go:70-91 | a node whose type has an id and a JSON form encodes |

## Left out

- Engine.ProcessNode, Engine.ProcessType and the other process methods require every child node to be present: in Go a nil `*SchemaNode` inside a combinator, list or object is dereferenced and panics, and a panic is not modelled (a list whose item type is nil is modelled: it is the checked error at `pongo/type_list.go:26-28`).
- Codec.DecodeMembers (and so Codec.DecodeType, Codec.DecodeNode and Envelopes.DecodeEnvelope) reads a bytes body with the corrected tag `minLen` (Codec.BytesFromJSON); Go reads `mixLen` (`pongo/type_bytes.go:12`), so on `{"minLen": 2}` Go leaves the lower bound unset where the model stores 2, and on `{"mixLen": 2}` Go stores 2 where the model ignores the member. The as-written reading is Codec.BytesFromJSONAsWritten (see "## Findings").
- Codec.DecodeChild: a null child where the decoder walks children is reported as an error; Go dereferences the nil node and panics.
- Codec.DecodeProperties: the order in which an object's children are decoded in the second phase is the sorted key order; Go ranges over a map, so when two children both fail, which error Go reports first is not fixed.
- JSON is modelled as parsed trees: byte-level syntax, the case-insensitive matching of member names by `encoding/json`, and duplicate members are not modelled; the version check compares the parsed string, not the raw bytes.
- Codec.DecodeMembers: a member of the wrong JSON shape fails the decoding; which member Go reports first when several are wrong is not modelled.
- Codec.KeptChildren: a factory whose value already holds children is not supported beyond reporting it; Go's reuse of the factory's slices while decoding into them is not modelled.
- Foreign schema types (any type outside the built-in ones) carry their JSON as is and their processing as a parameter; `type_float64.go`, `type_datetime.go` and `TimeProperty` are not part of this model, and the default registry takes the float64 and datetime factories as parameters.
- `MarshalJSONSchema` of every type and `schema_jsonschema_marshal.go` (the JSON Schema export) are not part of this model.
- Error messages are causes without text: reflection-derived type names and formatted messages are not modelled, and `Path.String` and `PathElement.schemaType` (used only for messages) are left out.
- The partial schema and metadata Go returns alongside a decoding error are not returned; the model returns the error only.
- Codec.MetadataOf: a null value inside `$metadata` is refused as not a string; Go would store the empty string.
- Registries.DefaultFactories: the default list is visited in a fixed order; with distinct ids the resulting content does not depend on it.
- Registries.Registry.Set models the error-returning registration of `pongo/schema_interface.go:118-126`; the single-return `Set` of `pongo/schema_pongoschema_marshal.go:94-99` registers under the id it derives without reporting an error, which is not modelled separately.
- Registries.Default returns the id error of a default factory whose id cannot be derived; Go's `DefaultSchemaUnmarshalMap` panics there (`pongo/schema_interface.go:84-86`), and a panic is not modelled.
- Codec.EncodeNode returns the invalid-type error for a node without a type; the cited `Schema.MarshalJSON` (`pongo/schema.go:70-72`) calls the single-value `SchemaTypeID` (`pongo/schema.go:255-264`), which panics on a nil type because it calls `String()` on the nil `reflect.Type`. The model follows the two-value `SchemaTypeID` of `pongo/schema_interface.go:91-104` and does not model the panic.
- Registries.GlobalRegistry: the package-level variable is an explicit object passed to its users; concurrent access is not modelled.
- Schemas.Handler: decorator handlers and foreign processors are functions of the action and the current value only. A Go `DecoratorFn` (`pongo/decorator.go:8`) also receives the data pointer, so it could read other frames or set overrides, and the original type, which the model does not pass. A handler's failure is limited to one cause at the cursor or a plain error; a Go handler may return any `error`, such as a `*SchemaError` with several entries at deeper paths or with none, which `DecoratedType.Process` hands back unchanged (`pongo/decorator.go:67-77`).
- Schemas.SchemaType.SetMinLen and the other schema setters return updated values; the Go setters return a copy that still shares the pointed-to properties with the receiver, and that sharing is not modelled.
- IntTypes.IntType.Cast: floating-point values and values implementing `IntTypeInterface` are opaque values, which the cast refuses; Go truncates a float and calls `Int()` on the interface. Floating point and foreign method calls are not modelled.
- StringTypes.StringType.Process: floating-point values and values implementing `fmt.Stringer` are opaque values, which the cast refuses; Go formats a float and calls `String()`, neither of which is modelled.
- Properties.ActionFlagProperty.UnmarshalJSON: only JSON booleans and lists of action names are accepted; other JSON shapes fail without modelling `encoding/json`'s exact message.
- BoolTypes.CastBool: floating-point values are opaque values, which the cast refuses; Go compares the interface holding a float64 or float32 with the int constant 0, so every float, zero included, casts to true (`pongo/type_bool.go:36-37`); floating point is not modelled.
- BytesTypes.BytesType.Process: the dispatch by action (parse to `Parse`, serialize to `Serialize`, an invalid-action error otherwise) is an addition of the model; `pongo/type_bytes.go:19-30` defines only `Parse` and `Serialize`.
- Envelopes.HeaderError: a JSON `null` document is reported as not an envelope; Go reads the decoded nil map and panics (`pongo/schema_pongoschema_marshal.go:41`, `pongo/schema_marshal.go:41`).
- Engine.ProcessChild pushes through the corrected `Path.Push` (see "## Findings"): the child's top frame is always its own; with Go's push it may be a slot shared with the frames of its siblings.
- Engine.ProcessList: each element error entry keeps the frame of the element that failed (corrected `Path.Push`); with Go's push, element frames may share a slot, so an earlier entry's path can end with a later element's frame.
- Engine.ProcessObject: each property error entry keeps the frame of the property that failed (corrected `Path.Push`); with Go's push, property frames may share a slot, so an earlier entry's path can end with a later property's frame.
- DataPointers.DataPointer.Push goes through the corrected `Path.Push` and inherits the same difference.
- Paths.PushAsWritten models the slice header, the backing array and `append`'s growth; a slot holds a frame's key and original data, and overrides are not carried in this representation.

## Findings

| source | as written | input that shows it | evidently intended | confidence | as-written member | corrected member |
|---|---|---|---|---|---|---|
| pongo/path.go:142-147 | `Push` appends the new frame to a copy of the slice header, so when the parent's backing array has a spare slot every path pushed from that parent writes its frame into the same slot | walking {"a": {"b": ["x", "y"]}} with an object, an object and a list: the root slice grows to capacity 2 and then 4, the frames "[0]" and "[1]" both land in slot 3, and the path kept for element "[0]" ends with ("[1]", "y") | each pushed path owns its top frame, so an error entry's path names the element that failed | medium, not executed (relies on `append` doubling a small slice's capacity) | Paths.PushAsWritten, Paths.SiblingPushesAsWritten, Paths.SiblingFramesAsWritten | Paths.Path.Push, Paths.SiblingFramesKept |
| pongo/type_bytes.go:12 | the lower bound's JSON tag is `mixLen`, while the encoder writes `minLen` | a bytes type with lower bound 2 encodes as `{"minLen": 2}` and decodes with no lower bound | the tag `minLen`, so a bytes type round-trips | high, not executed | Codec.BytesFromJSONAsWritten, Codec.BytesLoseMinLen, Codec.BytesMinLenExhibit | Codec.BytesFromJSON, Codec.BytesRoundTrip |
| pongo/properties.go:26-32 | `SetAction` writes into the action map without creating it | `SetAction(PARSE, 7)` on a property whose map is nil panics | create the map on first use, as `SetDefault` creates the property | high, not executed | Properties.ActionProperty.SetActionAsWritten, Properties.SetActionOnNilProperty | Properties.ActionProperty.SetAction |
| pongo/properties.go:49-58 | `GetDefault` returns the stored default but never sets `ok` | a property with default "x" returns ("x", false) | ok is true exactly when a default is set | high, not executed | Properties.ActionProperty.GetDefaultAsWritten, Properties.GetDefaultOfSetProperty | Properties.ActionProperty.GetDefault |
