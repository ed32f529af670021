// The cursor a schema type processes: the caller's root value and the stack
// of values reached on the way down.
module DataPointers {
  import opened Wrappers
  import opened Values
  import opened SchemaErrors
  import opened Paths

  datatype DataPointer = DataPointer(root: Data, path: Path)
  {
    /** The value under the cursor: the top frame's override or data. */
    function Get(): (v: Data)
      reads path.Top()
      ensures v == CurrentValue(path.View(), path.TopOverride())
    {
      path.Value()
    }

    function GetRoot(): Data { root }

    /** A cursor one level deeper; the receiver keeps its own path. */
    method Push(key: string, data: Data) returns (d: DataPointer)
      ensures d.root == root
      ensures |d.path.elements| == |path.elements| + 1
      ensures d.path.elements[..|path.elements|] == path.elements
      ensures fresh(d.path.elements[|path.elements|])
      ensures d.path.View() == path.View() + [Step(key, data)]
      ensures d.path.TopOverride() == None && d.Get() == data
    {
      var p := path.Push(key, data);
      d := DataPointer(root, p);
    }

    /** A new cursor with the same root over the same frames. */
    function Clone(): (d: DataPointer)
      ensures d.root == root && d.path.View() == path.View() && d.path.Top() == path.Top()
    {
      DataPointer(root, path.Clone())
    }
  }

  /**
   * The cursor a top-level call starts from: a non-nil value becomes the
   * single frame (with the empty key), nil gives an empty path.
   */
  method NewDataPointer(data: Data) returns (d: DataPointer)
    ensures d.root == data
    ensures d.path.View() == StartTrail(data)
    ensures d.path.TopOverride() == None && d.Get() == data
    ensures forall e :: e in d.path.elements ==> fresh(e)
  {
    if data != Null {
      var e := new PathElement("", data);
      d := DataPointer(data, NewPath([e]));
      assert d.path.View() == [Step("", data)];
    } else {
      d := DataPointer(data, NewPath([]));
    }
  }

  /** The trail of a freshly made cursor over `data`. */
  function StartTrail(data: Data): Trail
  {
    if data != Null then [Step("", data)] else []
  }

  /** `Get` on a possibly nil cursor: nil has no value. */
  function GetOrNull(d: Option<DataPointer>): (v: Data)
    reads if d.Some? then d.value.path.Top() else {}
    ensures d.None? ==> v == Null
    ensures d.Some? ==> v == d.value.Get()
  {
    match d
    case None => Null
    case Some(p) => p.Get()
  }

  /**
   * The scenario of the data pointer's own test: a cursor over 42 pushed to
   * "aRandomValue" reads the pushed value and keeps its root; a cursor
   * pushed from it, and a child cursor pushed from that one, each see their
   * own top frame: an override on the child shows through `Get` until it is
   * unset, and the parent keeps reading its own value.
   */
  method OverrideScenario() returns (pushed: Data, root: Data, overridden: Data, restored: Data, parent: Data, sizes: (nat, nat))
    ensures pushed == Str("aRandomValue") && root == GoIntOf(42)
    ensures overridden == Str("bat") && restored == Str("baz") && parent == Str("bar")
    ensures sizes.0 + 1 == sizes.1
  {
    var d := NewDataPointer(GoIntOf(42));
    d := d.Push("1", Str("aRandomValue"));
    pushed := d.Get();
    root := d.GetRoot();
    d := d.Push("foo", Str("bar"));
    var d2 := d.Push("foo", Str("baz"));
    var err := d2.path.SetOverride(Str("bat"));
    overridden := d2.Get();
    err := d2.path.UnsetOverride();
    restored := d2.Get();
    parent := d.Get();
    sizes := (d.path.Size(), d2.path.Size());
  }
}
