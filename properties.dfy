// Per-action flags and optional numbers: the small properties every leaf
// type and allOf consult, with their JSON forms.
module Properties {
  import opened Wrappers
  import opened Values
  import opened SchemaErrors
  import opened Text

  // ---------------------------------------------------------------------
  // Action flags as values

  /**
   * The state of an action flag: `all` switches it on for every action,
   * otherwise it is on for the actions in `enabled`. (A nil and an empty
   * `enabled` map behave the same everywhere, so both are the empty set.)
   */
  datatype ActionFlags = ActionFlags(all: bool, enabled: set<Action>)
  {
    predicate GetAction(action: Action)
    {
      all || action in enabled
    }

    /** Neither on for all actions nor for any particular one. */
    predicate Empty()
    {
      !all && enabled == {}
    }
  }

  /** A freshly allocated flag, Go's `&ActionFlagProperty{}`. */
  const NoFlags := ActionFlags(false, {})

  /** `GetAction` on a flag pointer that may be nil: nil is off for every action. */
  function FlagOn(p: Option<ActionFlags>, action: Action): (r: bool)
    ensures p.None? ==> !r
    ensures p.Some? && p.value.all ==> r
    ensures p.Some? && !p.value.all ==> (r <==> action in p.value.enabled)
  {
    p.Some? && p.value.GetAction(action)
  }

  /** `Set(all)` on a flag pointer that may be nil (nil allocates a fresh one). */
  function SetAll(p: Option<ActionFlags>, all: bool): (r: ActionFlags)
    ensures r.all == all
    ensures r.enabled == (if p.Some? then p.value.enabled else {})
  {
    p.GetOr(NoFlags).(all := all)
  }

  /** `SetActions` on a flag pointer that may be nil: the set becomes exactly `actions`. */
  function SetActionsOf(p: Option<ActionFlags>, actions: seq<Action>): (r: ActionFlags)
    ensures r.all == (p.Some? && p.value.all)
    ensures forall a :: a in r.enabled <==> a in actions
  {
    p.GetOr(NoFlags).(enabled := set a | a in actions)
  }

  /** `UnsetActions` on a flag pointer that may be nil: nil stays nil. */
  function UnsetActionsOf(p: Option<ActionFlags>, actions: seq<Action>): (r: Option<ActionFlags>)
    ensures p.None? ==> r.None?
    ensures p.Some? ==> r.Some? && r.value.all == p.value.all
    ensures p.Some? ==> forall a :: a in r.value.enabled <==> a in p.value.enabled && a !in actions
  {
    match p
    case None => None
    case Some(f) => Some(f.(enabled := f.enabled - set a | a in actions))
  }

  /** The JSON strings of a list of action names. */
  function StrList(names: seq<string>): (r: seq<Data>)
    ensures |r| == |names| && forall i :: 0 <= i < |r| ==> r[i] == Str(names[i])
  {
    seq(|names|, i requires 0 <= i < |names| => Str(names[i]))
  }

  /**
   * The JSON form of a flag: `true` when on for all actions, `false` when on
   * for none, else the sorted list of the enabled actions' names.
   */
  ghost function FlagsJSON(f: ActionFlags): Data
  {
    if f.all then Bool(true)
    else if f.enabled == {} then Bool(false)
    else Seq(StrList(SortedList(f.enabled)))
  }

  /**
   * Decoding JSON into an existing flag: a bool sets only `all`; a list of
   * strings replaces the enabled set and leaves `all` alone; anything else
   * (null, a number, an object, a list holding a non-string) is refused.
   */
  function UnmarshalFlags(f: ActionFlags, j: Data): (r: Result<ActionFlags, DecodeError>)
    ensures j.Bool? ==> r == Ok(f.(all := j.b))
    ensures r.Ok? && !j.Bool? ==> j.Seq? && r.value.all == f.all
    ensures r.Ok? && !j.Bool? ==> forall a :: a in r.value.enabled <==> Str(a) in j.items
    ensures r.Err? <==> !j.Bool? && !(j.Seq? && forall i :: 0 <= i < |j.items| ==> j.items[i].Str?)
  {
    match j
    case Bool(b) => Ok(f.(all := b))
    case Seq(items) =>
      if forall i :: 0 <= i < |items| ==> items[i].Str? then
        var names := set i | 0 <= i < |items| :: items[i].s;
        assert forall a :: a in names <==> Str(a) in items by {
          forall a ensures a in names <==> Str(a) in items {
            if Str(a) in items {
              var i :| 0 <= i < |items| && items[i] == Str(a);
            }
          }
        }
        Ok(f.(enabled := names))
      else Err(NotFlags)
    case _ => Err(NotFlags)
  }

  /**
   * Decoding the JSON form of a flag into a fresh flag restores it, except
   * that a flag on for all actions comes back with no individual actions; the
   * two answer `GetAction` identically.
   */
  lemma FlagsRoundTrip(f: ActionFlags)
    ensures UnmarshalFlags(NoFlags, FlagsJSON(f)) == Ok(if f.all then ActionFlags(true, {}) else f)
    ensures forall a :: UnmarshalFlags(NoFlags, FlagsJSON(f)).value.GetAction(a) == f.GetAction(a)
  {
    if !f.all && f.enabled != {} {
      var items := StrList(SortedList(f.enabled));
      forall a ensures Str(a) in items <==> a in f.enabled {
        if a in f.enabled {
          var i :| 0 <= i < |SortedList(f.enabled)| && SortedList(f.enabled)[i] == a;
          assert items[i] == Str(a);
        }
      }
      var r := UnmarshalFlags(NoFlags, Seq(items));
      assert r.value.enabled == f.enabled;
    }
  }

  // ---------------------------------------------------------------------
  // Action flags as objects

  /** Go's `ActionFlagProperty`, updated in place through its pointer methods. */
  class ActionFlagProperty {
    var all: bool
    var enabled: set<Action>

    function Value(): ActionFlags
      reads this
    {
      ActionFlags(all, enabled)
    }

    constructor ()
      ensures Value() == NoFlags
    {
      all := false;
      enabled := {};
    }

    /** Replaces the enabled set by exactly `actions`; nil allocates a fresh flag. */
    static method SetActions(a: ActionFlagProperty?, actions: seq<Action>) returns (r: ActionFlagProperty)
      modifies a
      ensures a != null ==> r == a && r.all == old(a.all)
      ensures a == null ==> fresh(r) && !r.all
      ensures r.enabled == set x | x in actions
    {
      if a == null {
        r := new ActionFlagProperty();
      } else {
        r := a;
      }
      r.enabled := {};
      var i := 0;
      while i < |actions|
        invariant 0 <= i <= |actions|
        invariant r.enabled == set x | x in actions[..i]
        invariant a != null ==> r.all == old(a.all)
        invariant a == null ==> !r.all
      {
        assert actions[..i + 1] == actions[..i] + [actions[i]];
        r.enabled := r.enabled + {actions[i]};
        i := i + 1;
      }
      assert actions[..|actions|] == actions;
    }

    /** Adds `actions` to the enabled set. */
    method AppendActions(actions: seq<Action>)
      modifies this
      ensures all == old(all)
      ensures enabled == old(enabled) + set x | x in actions
    {
      var i := 0;
      while i < |actions|
        invariant 0 <= i <= |actions|
        invariant all == old(all)
        invariant enabled == old(enabled) + set x | x in actions[..i]
      {
        assert actions[..i + 1] == actions[..i] + [actions[i]];
        enabled := enabled + {actions[i]};
        i := i + 1;
      }
      assert actions[..|actions|] == actions;
    }

    /** Removes exactly `actions` from the enabled set; nil is left alone. */
    static method UnsetActions(a: ActionFlagProperty?, actions: seq<Action>)
      modifies a
      ensures a != null ==> a.all == old(a.all)
      ensures a != null ==> a.enabled == old(a.enabled) - set x | x in actions
    {
      if a == null {
        return;
      }
      var i := 0;
      while i < |actions|
        invariant 0 <= i <= |actions|
        invariant a.all == old(a.all)
        invariant a.enabled == old(a.enabled) - set x | x in actions[..i]
      {
        assert actions[..i + 1] == actions[..i] + [actions[i]];
        a.enabled := a.enabled - {actions[i]};
        i := i + 1;
      }
      assert actions[..|actions|] == actions;
    }

    method ResetActions()
      modifies this
      ensures all == old(all) && enabled == {}
    {
      enabled := {};
    }

    /** Switches the flag on or off for all actions; nil allocates a fresh flag. */
    static method Set(a: ActionFlagProperty?, all: bool) returns (r: ActionFlagProperty)
      modifies a
      ensures a != null ==> r == a && r.enabled == old(a.enabled)
      ensures a == null ==> fresh(r) && r.enabled == {}
      ensures Get(r) == all
    {
      if a == null {
        r := new ActionFlagProperty();
      } else {
        r := a;
      }
      r.all := all;
    }

    static function Get(a: ActionFlagProperty?): (r: bool)
      reads a
      ensures r <==> a != null && a.Value().all
    {
      a != null && a.all
    }

    /** Whether the flag is on for `action`; nil is off for every action. */
    static function GetAction(a: ActionFlagProperty?, action: Action): (r: bool)
      reads a
      ensures r == FlagOn(if a == null then None else Some(a.Value()), action)
    {
      if a == null then false
      else if a.all then true
      else action in a.enabled
    }

    /** The enabled actions, each once, in no particular order. */
    static method GetActions(a: ActionFlagProperty?) returns (l: seq<Action>)
      ensures a == null ==> l == []
      ensures a != null ==> forall x :: x in l <==> x in a.enabled
      ensures forall i, j :: 0 <= i < j < |l| ==> l[i] != l[j]
    {
      l := [];
      if a == null {
        return;
      }
      var rest := a.enabled;
      while rest != {}
        invariant rest <= a.enabled
        invariant forall x :: x in l <==> x in a.enabled && x !in rest
        invariant forall i, j :: 0 <= i < j < |l| ==> l[i] != l[j]
        decreases rest
      {
        var x :| x in rest;
        l := l + [x];
        rest := rest - {x};
      }
    }

    /** The JSON form of the flag (see `FlagsJSON`), built as Go builds it. */
    method MarshalJSON() returns (j: Data)
      ensures j == FlagsJSON(Value())
    {
      if all {
        return Bool(true);
      }
      if enabled == {} {
        return Bool(false);
      }
      var castOps: seq<string> := [];
      var rest := enabled;
      while rest != {}
        invariant rest <= enabled
        invariant forall x :: multiset(castOps)[x] == if x in enabled && x !in rest then 1 else 0
        decreases rest
      {
        var x :| x in rest;
        castOps := castOps + [x];
        rest := rest - {x};
      }
      var sorted := SortStrings(castOps);
      forall i, k | 0 <= i < k < |sorted| ensures sorted[i] != sorted[k] {
        if sorted[i] == sorted[k] {
          TwiceCounted(sorted, i, k);
        }
      }
      SortedDistinct(sorted);
      forall x ensures x in sorted <==> x in SortedList(enabled) {
        assert x in sorted <==> multiset(sorted)[x] > 0;
      }
      StrictlySortedUnique(sorted, SortedList(enabled));
      j := Seq(StrList(sorted));
    }

    /**
     * Decodes JSON into this flag (see `UnmarshalFlags`); on an error the
     * flag is unchanged.
     */
    method UnmarshalJSON(j: Data) returns (err: Option<DecodeError>)
      modifies this
      ensures UnmarshalFlags(old(Value()), j).Ok? ==> err.None? && Value() == UnmarshalFlags(old(Value()), j).value
      ensures UnmarshalFlags(old(Value()), j).Err? ==> err == Some(NotFlags) && Value() == old(Value())
    {
      match j
      case Bool(b) =>
        all := b;
        return None;
      case Seq(items) =>
        var names: seq<string> := [];
        var ok := true;
        var i := 0;
        while i < |items| && ok
          invariant 0 <= i <= |items|
          invariant ok ==> |names| == i && forall k :: 0 <= k < i ==> items[k] == Str(names[k])
          invariant !ok ==> 0 < i && !items[i - 1].Str?
        {
          ok := items[i].Str?;
          if ok {
            names := names + [items[i].s];
          }
          i := i + 1;
        }
        if !ok {
          return Some(NotFlags);
        }
        var e: set<Action> := {};
        var k := 0;
        while k < |names|
          invariant 0 <= k <= |names|
          invariant e == set n | n in names[..k]
        {
          assert names[..k + 1] == names[..k] + [names[k]];
          e := e + {names[k]};
          k := k + 1;
        }
        assert names[..|names|] == names;
        forall a ensures a in e <==> Str(a) in items {
          if Str(a) in items {
            var m :| 0 <= m < |items| && items[m] == Str(a);
            assert names[m] == a;
          }
        }
        enabled := e;
        return None;
      case _ =>
        return Some(NotFlags);
    }
  }

  /** An element found at two positions is counted at least twice. */
  lemma TwiceCounted(s: seq<string>, i: nat, k: nat)
    requires i < k < |s| && s[i] == s[k]
    ensures multiset(s)[s[i]] >= 2
  {
    assert s == s[..k] + [s[k]] + s[k + 1..];
    assert s[i] in s[..k];
  }

  // ---------------------------------------------------------------------
  // Optional numbers

  /** Inclusive bounds that may each be unset. */
  predicate InBounds(n: int, lo: Option<int64>, hi: Option<int64>)
  {
    (lo.None? || lo.value <= n) && (hi.None? || n <= hi.value)
  }

  /** The cause a length check reports; the lower bound is checked first. */
  function LengthError(n: int, lo: Option<int64>, hi: Option<int64>): (r: Option<Cause>)
    ensures r.None? <==> InBounds(n, lo, hi)
    ensures r.Some? ==> (lo.Some? && r.value == TooShort(n, lo.value)) || (hi.Some? && r.value == TooLong(n, hi.value))
    ensures lo.Some? && lo.value > n ==> r == Some(TooShort(n, lo.value))
  {
    if lo.Some? && lo.value > n then Some(TooShort(n, lo.value))
    else if hi.Some? && hi.value < n then Some(TooLong(n, hi.value))
    else None
  }

  /** Go `NumberProperty.Get` on a value that may be unset: (0, false) when unset. */
  function NumberGet(n: Option<int64>): (r: (int, bool))
    ensures r.1 <==> n.Some?
    ensures n.Some? ==> r.0 == n.value
    ensures n.None? ==> r.0 == 0
  {
    match n
    case None => (0, false)
    case Some(v) => (v, true)
  }

  /** The JSON form of an optional number: null when unset. */
  function NumberJSON(n: Option<int64>): (j: Data)
    ensures n.None? <==> j == Null
  {
    match n
    case None => Null
    case Some(v) => Int(GoInt, v)
  }

  /**
   * Decoding JSON into an optional Go `int`: null unsets, an integer within
   * the 64-bit range sets, anything else is refused, a number too large for
   * an `int` included.
   */
  function UnmarshalNumber(j: Data): (r: Result<Option<int64>, DecodeError>)
    ensures r.Ok? <==> j.Null? || (j.Int? && InInt64(j.i))
    ensures r.Ok? && j.Int? ==> r.value == Some(j.i)
  {
    match j
    case Null => Ok(None)
    case Int(_, v) => if InInt64(v) then Ok(Some(v)) else Err(NotANumber)
    case _ => Err(NotANumber)
  }

  lemma NumberRoundTrip(n: Option<int64>)
    ensures UnmarshalNumber(NumberJSON(n)) == Ok(n)
  {
  }

  /** Go's `NumberProperty[int]`, a pointer to an optional number. */
  class NumberProperty {
    var n: Option<int64>

    constructor ()
      ensures n == None
    {
      n := None;
    }

    /** Stores `i`; nil allocates a fresh property. */
    static method Set(m: NumberProperty?, i: int64) returns (r: NumberProperty)
      modifies m
      ensures m != null ==> r == m
      ensures m == null ==> fresh(r)
      ensures Get(r) == (i, true)
    {
      if m == null {
        r := new NumberProperty();
      } else {
        r := m;
      }
      r.n := Some(i);
    }

    /** Forgets the number; nil is left alone. */
    static method Unset(m: NumberProperty?)
      modifies m
      ensures m != null ==> m.n == None && Get(m) == (0, false) && m.MarshalJSON() == Null
    {
      if m != null {
        m.n := None;
      }
    }

    static function Get(m: NumberProperty?): (r: (int, bool))
      reads m
      ensures r == NumberGet(if m == null then None else m.n)
    {
      if m == null || m.n.None? then (0, false) else (m.n.value, true)
    }

    function MarshalJSON(): (j: Data)
      reads this
      ensures UnmarshalNumber(j) == Ok(n)
    {
      NumberJSON(n)
    }

    /** Decodes JSON into this property; on an error it is unchanged. */
    method UnmarshalJSON(j: Data) returns (err: Option<DecodeError>)
      modifies this
      ensures UnmarshalNumber(j).Ok? ==> err.None? && n == UnmarshalNumber(j).value
      ensures UnmarshalNumber(j).Err? ==> err == Some(NotANumber) && n == old(n)
    {
      match UnmarshalNumber(j)
      case Ok(v) =>
        n := v;
        err := None;
      case Err(e) =>
        err := Some(e);
    }
  }

  // ---------------------------------------------------------------------
  // Per-action values

  /**
   * Go's `ActionProperty[T]`: an optional default plus an optional map from
   * action to value. (Go returns the zero value of `T` beside `ok == false`;
   * here the pair is an `Option<T>`.)
   */
  class ActionProperty<T(==)> {
    var defaultValue: Option<T>
    var actions: Option<map<Action, T>>

    constructor ()
      ensures defaultValue == None && actions == None
    {
      defaultValue := None;
      actions := None;
    }

    /** Deletes `keys` from the map; a missing map stays missing. */
    method UnsetActions(keys: seq<Action>)
      modifies this
      ensures defaultValue == old(defaultValue)
      ensures old(actions).None? ==> actions == None
      ensures old(actions).Some? ==> actions == Some(old(actions).value - set k | k in keys)
    {
      if actions.None? {
        return;
      }
      var i := 0;
      assert old(actions).value - (set k | k in keys[..0]) == old(actions).value;
      while i < |keys|
        invariant 0 <= i <= |keys|
        invariant defaultValue == old(defaultValue)
        invariant actions == Some(old(actions).value - set k | k in keys[..i])
      {
        var upto := keys[..i + 1];
        assert upto == keys[..i] + [keys[i]];
        assert (set k | k in upto) == (set k | k in keys[..i]) + {keys[i]};
        assert actions.value - {keys[i]} == old(actions).value - (set k | k in upto);
        actions := Some(actions.value - {keys[i]});
        i := i + 1;
      }
      assert keys[..|keys|] == keys;
    }

    /**
     * `SetAction` as written: it writes into the map without allocating it,
     * so it panics whenever the map is missing, in particular on the fresh
     * property it allocates for a nil receiver.
     */
    static method SetActionAsWritten(a: ActionProperty?<T>, action: Action, value: T)
      returns (r: ActionProperty?<T>, panics: bool)
      modifies a
      ensures panics <==> a == null || old(a.actions).None?
      ensures !panics ==> r == a && a.defaultValue == old(a.defaultValue)
      ensures !panics ==> a.actions == Some(old(a.actions).value[action := value])
    {
      r := a;
      if r == null {
        r := new ActionProperty();
      }
      if r.actions.None? {
        return r, true;
      }
      r.actions := Some(r.actions.value[action := value]);
      panics := false;
    }

    /** `SetAction` with the missing map allocated first. */
    static method SetAction(a: ActionProperty?<T>, action: Action, value: T) returns (r: ActionProperty<T>)
      modifies a
      ensures a != null ==> r == a && r.defaultValue == old(a.defaultValue)
      ensures a == null ==> fresh(r) && r.defaultValue == None
      ensures r.actions == Some(ActionsOrEmpty(if a == null then None else old(a.actions))[action := value])
      ensures GetAction(r, action) == Some(value)
    {
      if a == null {
        r := new ActionProperty();
      } else {
        r := a;
      }
      if r.actions.None? {
        r.actions := Some(map[]);
      }
      r.actions := Some(r.actions.value[action := value]);
    }

    /** Sets the default; nil allocates a fresh property. */
    static method SetDefault(a: ActionProperty?<T>, value: T) returns (r: ActionProperty<T>)
      modifies a
      ensures a != null ==> r == a && r.actions == old(a.actions)
      ensures a == null ==> fresh(r) && r.actions == None
      ensures r.defaultValue == Some(value)
    {
      if a == null {
        r := new ActionProperty();
      } else {
        r := a;
      }
      r.defaultValue := Some(value);
    }

    /** Forgets the default; nil is left alone. */
    static method UnsetDefault(a: ActionProperty?<T>)
      modifies a
      ensures a != null ==> a.defaultValue == None && a.actions == old(a.actions)
    {
      if a != null {
        a.defaultValue := None;
      }
    }

    /**
     * `GetDefault` as written: it hands back the default value but returns its
     * named result `ok`, which is never assigned, so `ok` is always false.
     */
    static function GetDefaultAsWritten(a: ActionProperty?<T>): (r: (Option<T>, bool))
      reads a
      ensures !r.1
      ensures r.0 == (if a == null then None else a.defaultValue)
    {
      if a == null then (None, false)
      else if a.defaultValue.Some? then (a.defaultValue, false)
      else (None, false)
    }

    /** `GetDefault` reporting `ok` exactly when a default is set. */
    static function GetDefault(a: ActionProperty?<T>): (r: (Option<T>, bool))
      reads a
      ensures r.1 <==> a != null && a.defaultValue.Some?
      ensures r.1 ==> r.0 == a.defaultValue
      ensures !r.1 ==> r.0 == None
    {
      if a == null then (None, false)
      else if a.defaultValue.Some? then (a.defaultValue, true)
      else (None, false)
    }

    /** The value for `action`: its own entry first, else the default, else none. */
    static function GetAction(a: ActionProperty?<T>, action: Action): (r: Option<T>)
      reads a
      ensures a == null ==> r == None
      ensures a != null && a.actions.Some? && action in a.actions.value ==> r == Some(a.actions.value[action])
      ensures a != null && !(a.actions.Some? && action in a.actions.value) ==> r == a.defaultValue
    {
      if a == null then None
      else if a.actions.Some? && action in a.actions.value then Some(a.actions.value[action])
      else a.defaultValue
    }
  }

  /** A map that may be nil, read as a map. */
  function ActionsOrEmpty<T>(m: Option<map<Action, T>>): (r: map<Action, T>)
    ensures m.None? ==> r == map[]
    ensures m.Some? ==> r == m.value
  {
    m.GetOr(map[])
  }

  /** `SetAction` on a nil property panics; with the map allocated it stores the value. */
  method SetActionOnNilProperty() returns (panics: bool, stored: Option<int>)
    ensures panics
    ensures stored == Some(7)
  {
    var r;
    r, panics := ActionProperty<int>.SetActionAsWritten(null, PARSE, 7);
    var fixed := ActionProperty<int>.SetAction(null, PARSE, 7);
    stored := ActionProperty.GetAction(fixed, PARSE);
  }

  /** A set default is reported missing by `GetDefault` as written, and present once corrected. */
  method GetDefaultOfSetProperty() returns (okAsWritten: bool, okCorrected: bool, value: Option<string>)
    ensures !okAsWritten && okCorrected
    ensures value == Some("2006-01-02")
  {
    var p := ActionProperty<string>.SetDefault(null, "2006-01-02");
    okAsWritten := ActionProperty.GetDefaultAsWritten(p).1;
    okCorrected := ActionProperty.GetDefault(p).1;
    value := ActionProperty.GetDefault(p).0;
  }

  /**
   * The life of one flag: set for PARSE, then for all actions, back to PARSE
   * only, SERIALIZE appended, then reset; each observation is returned.
   */
  method FlagScenario() returns (fresh0: bool, parseOnly: (bool, bool), allOn: (bool, Data), parseAgain: (bool, bool, Data), appended: (bool, bool), reset: (bool, bool))
    ensures fresh0 == false
    ensures parseOnly == (true, false)
    ensures allOn == (true, Bool(true))
    ensures parseAgain == (true, false, Seq([Str(PARSE)]))
    ensures appended == (true, true)
    ensures reset == (false, false)
  {
    var test := new ActionFlagProperty();
    fresh0 := ActionFlagProperty.Get(test) || ActionFlagProperty.GetAction(test, SERIALIZE);
    var _ := ActionFlagProperty.SetActions(test, [PARSE]);
    parseOnly := (ActionFlagProperty.GetAction(test, PARSE), ActionFlagProperty.GetAction(test, SERIALIZE));
    assert parseOnly == (true, false);
    var _ := ActionFlagProperty.Set(test, true);
    var j := test.MarshalJSON();
    allOn := (ActionFlagProperty.GetAction(test, SERIALIZE) && ActionFlagProperty.Get(test), j);
    assert allOn == (true, Bool(true));
    var _ := ActionFlagProperty.Set(test, false);
    ActionFlagProperty.UnsetActions(test, [SERIALIZE]);
    assert test.enabled == {PARSE};
    j := test.MarshalJSON();
    SortedListSingleton(PARSE);
    assert StrList([PARSE]) == [Str(PARSE)];
    parseAgain := (ActionFlagProperty.GetAction(test, PARSE), ActionFlagProperty.GetAction(test, SERIALIZE), j);
    assert parseAgain == (true, false, Seq([Str(PARSE)]));
    test.AppendActions([SERIALIZE]);
    appended := (ActionFlagProperty.GetAction(test, PARSE), ActionFlagProperty.GetAction(test, SERIALIZE));
    assert appended == (true, true);
    test.ResetActions();
    reset := (ActionFlagProperty.GetAction(test, PARSE), ActionFlagProperty.GetAction(test, SERIALIZE));
  }
}
