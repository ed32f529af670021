// The processing stack. Each frame holds the key under which a value was
// reached and that value; the top frame may carry an override, which is how
// a chained allOf hands its output to the next sub-schema. A `Path` value
// shares the frames below its top with the path it was pushed from (and a
// Clone shares all of them), while every Push gets a frame of its own. Go's
// `append` instead writes a pushed frame into the parent's spare slot when
// there is one, so paths pushed from the same parent share their top frame;
// `FrameSlice` and `PushAsWritten` below model that, and the frame-per-push
// `Path.Push` is the behaviour the rest of the model uses.
module Paths {
  import opened Wrappers
  import opened Values
  import opened SchemaErrors

  /** One frame of the stack. */
  class PathElement {
    const key: string
    const data: Data
    var override: Data
    var hasOverride: bool

    constructor (key: string, data: Data)
      ensures this.key == key && this.data == data
      ensures override == Null && !hasOverride
    {
      this.key := key;
      this.data := data;
      override := Null;
      hasOverride := false;
    }

    method SetOverride(v: Data)
      modifies this
      ensures override == v && hasOverride
    {
      override := v;
      hasOverride := true;
    }

    method UnsetOverride()
      modifies this
      ensures override == Null && !hasOverride
    {
      override := Null;
      hasOverride := false;
    }
  }

  /** What a frame contributes apart from its override: its key and original data. */
  datatype Step = Step(key: string, data: Data)

  /** A stack as a value: its frames' keys and data, bottom first. */
  type Trail = seq<Step>

  /**
   * The value a path designates, given its trail and its top frame's
   * override: nothing for an empty path, else the override if one is set,
   * else the top frame's original data.
   */
  function CurrentValue(trail: Trail, ov: Option<Data>): Data
  {
    if |trail| == 0 then Null
    else if ov.Some? then ov.value
    else trail[|trail| - 1].data
  }

  datatype Path = Path(elements: seq<PathElement>)
  {
    /** The frames a change of the path's value may touch: the top one. */
    function Top(): set<PathElement>
    {
      if |elements| == 0 then {} else {elements[|elements| - 1]}
    }

    function Size(): nat { |elements| }

    function Last(): (r: Option<PathElement>)
      ensures r.None? <==> |elements| == 0
      ensures r.Some? ==> r.value in Top()
    {
      if |elements| > 0 then Some(elements[|elements| - 1]) else None
    }

    /** The keys and original data of the frames, bottom first. */
    function View(): (t: Trail)
      ensures |t| == |elements|
      ensures forall i :: 0 <= i < |t| ==> t[i] == Step(elements[i].key, elements[i].data)
    {
      seq(|elements|, i requires 0 <= i < |elements| => Step(elements[i].key, elements[i].data))
    }

    /** The override of the top frame, if the path has one and it is set. */
    function TopOverride(): Option<Data>
      reads Top()
    {
      if |elements| > 0 && elements[|elements| - 1].hasOverride
      then Some(elements[|elements| - 1].override) else None
    }

    function Value(): (v: Data)
      reads Top()
      ensures v == CurrentValue(View(), TopOverride())
    {
      match Last()
      case None => Null
      case Some(last) => if last.hasOverride then last.override else last.data
    }

    function OriginalValue(): (v: Data)
      ensures |elements| == 0 ==> v == Null
      ensures |elements| > 0 ==> v == View()[|elements| - 1].data
    {
      match Last()
      case None => Null
      case Some(last) => last.data
    }

    function OverwrittenValue(): (r: (Data, bool))
      reads Top()
      ensures r.1 <==> TopOverride().Some?
      ensures r.1 ==> r.0 == TopOverride().value
    {
      match Last()
      case None => (Null, false)
      case Some(last) => (last.override, last.hasOverride)
    }

    /** Overrides the top frame's value; an empty path has no frame to override. */
    method SetOverride(v: Data) returns (err: Option<Cause>)
      modifies Top()
      ensures err.Some? <==> |elements| == 0
      ensures err.Some? ==> err.value == EmptyPath
      ensures |elements| > 0 ==> TopOverride() == Some(v) && Value() == v
    {
      match Last()
      case None => err := Some(EmptyPath);
      case Some(last) =>
        last.SetOverride(v);
        err := None;
    }

    /** Drops the top frame's override, uncovering its original data. */
    method UnsetOverride() returns (err: Option<Cause>)
      modifies Top()
      ensures err.Some? <==> |elements| == 0
      ensures err.Some? ==> err.value == EmptyPath
      ensures |elements| > 0 ==> TopOverride() == None && Value() == OriginalValue()
    {
      match Last()
      case None => err := Some(EmptyPath);
      case Some(last) =>
        last.UnsetOverride();
        err := None;
    }

    /**
     * A path one frame longer: the existing frames are shared, the new top
     * frame is fresh and has no override.
     */
    method Push(key: string, data: Data) returns (p: Path)
      ensures |p.elements| == |elements| + 1 && p.elements[..|elements|] == elements
      ensures fresh(p.elements[|elements|])
      ensures p.View() == View() + [Step(key, data)]
      ensures p.TopOverride() == None && p.Value() == data
    {
      var e := new PathElement(key, data);
      p := Path(elements + [e]);
      assert p.View() == View() + [Step(key, data)];
    }

    /** A new path header over the same frames. */
    function Clone(): (p: Path)
      ensures p.View() == View() && p.Top() == Top()
    {
      Path(elements)
    }
  }

  /** A path over the given frames; no frames gives the empty path. */
  function NewPath(keys: seq<PathElement>): (p: Path)
    ensures p.Size() == |keys|
    ensures p.elements == keys
  {
    if |keys| > 0 then Path(keys) else Path([])
  }

  // ---------------------------------------------------------------------
  // Go's slice representation of a path

  /**
   * The capacity `append` gives when it must grow a full slice of frames:
   * one for an empty slice, double otherwise (Go's runtime also rounds to
   * its allocator's size classes, which changes nothing for the 72-byte
   * frames of stacks shorter than 64).
   */
  function GrownCapacity(c: nat): (r: nat)
    ensures r > c
  {
    if c == 0 then 1 else 2 * c
  }

  /**
   * A path as Go stores it: a slice header over a backing array of frames.
   * The header sees the first `len` slots; the array's length is the
   * slice's capacity and the slots past `len` are spare. Overrides are left
   * out: a slot holds a frame's key and original data.
   */
  datatype FrameSlice = FrameSlice(backing: array<Step>, len: nat)
  {
    predicate Valid() { len <= backing.Length }

    /** The frames the header sees, bottom first. */
    function Frames(): (t: Trail)
      reads backing
      requires Valid()
      ensures |t| == len
    {
      backing[..len]
    }
  }

  /**
   * `Path.Push` as written: `append` on a copy of the header. With a spare
   * slot the new frame is written into the parent's own array, past its
   * length, so every path pushed from the same parent shares that slot; a
   * full array is copied into a larger fresh one.
   */
  method PushAsWritten(s: FrameSlice, step: Step) returns (t: FrameSlice)
    requires s.Valid()
    modifies s.backing
    ensures t.Valid() && t.len == s.len + 1
    ensures t.Frames() == old(s.Frames()) + [step]
    ensures s.len < s.backing.Length ==> t.backing == s.backing
    ensures s.len < s.backing.Length ==> forall i :: 0 <= i < s.backing.Length && i != s.len ==> s.backing[i] == old(s.backing[i])
    ensures s.len == s.backing.Length ==> fresh(t.backing) && t.backing.Length == GrownCapacity(s.len) && unchanged(s.backing)
  {
    if s.len < s.backing.Length {
      s.backing[s.len] := step;
      t := FrameSlice(s.backing, s.len + 1);
    } else {
      var a := new Step[GrownCapacity(s.len)];
      forall i | 0 <= i < s.len {
        a[i] := s.backing[i];
      }
      a[s.len] := step;
      t := FrameSlice(a, s.len + 1);
    }
  }

  /**
   * Two paths pushed from the same parent that has a spare slot: once the
   * second is pushed, both see its frame on top.
   */
  method SiblingPushesAsWritten(s: FrameSlice, x: Step, y: Step) returns (t1: FrameSlice, t2: FrameSlice)
    requires s.Valid() && s.len < s.backing.Length
    modifies s.backing
    ensures t1.Valid() && t2.Valid()
    ensures t1.Frames() == t2.Frames() == old(s.Frames()) + [y]
  {
    t1 := PushAsWritten(s, x);
    t2 := PushAsWritten(s, y);
  }

  /** The document {"a": {"b": ["x", "y"]}}. */
  function NestedDocument(): Data
  {
    Map(map["a" := Map(map["b" := Seq([Str("x"), Str("y")])])])
  }

  /**
   * The frames an object, an object and a list push while walking
   * `NestedDocument()`, with Go's `append`: the root slice has capacity 1,
   * the pushes of "a" and "b" grow it to 2 and then 4, so the frames of the
   * list elements "[0]" and "[1]" both land in slot 3, and the path kept for
   * the first element now ends with the second element's frame.
   */
  method SiblingFramesAsWritten() returns (first: Trail, second: Trail)
    ensures |first| == 4 && first == second
    ensures first[3] == Step("[1]", Str("y"))
  {
    var doc := NestedDocument();
    var a := new Step[1];
    a[0] := Step("", doc);
    var root := FrameSlice(a, 1);
    var pa := PushAsWritten(root, Step("a", doc.entries["a"]));
    var pb := PushAsWritten(pa, Step("b", doc.entries["a"].entries["b"]));
    var e0 := PushAsWritten(pb, Step("[0]", Str("x")));
    var e1 := PushAsWritten(pb, Step("[1]", Str("y")));
    first := e0.Frames();
    second := e1.Frames();
  }

  /**
   * The same walk with `Path.Push`: each element's path ends with its own
   * frame.
   */
  method SiblingFramesKept() returns (first: Trail, second: Trail)
    ensures |first| == |second| == 4 && first[..3] == second[..3]
    ensures first[3] == Step("[0]", Str("x")) && second[3] == Step("[1]", Str("y"))
  {
    var doc := NestedDocument();
    var top := new PathElement("", doc);
    var root := Path([top]);
    var pa := root.Push("a", doc.entries["a"]);
    var pb := pa.Push("b", doc.entries["a"].entries["b"]);
    var e0 := pb.Push("[0]", Str("x"));
    var e1 := pb.Push("[1]", Str("y"));
    first := e0.View();
    second := e1.View();
  }
}
