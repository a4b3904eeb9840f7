/** The attribute dictionary of a stimulus object and the two ways it is logged:
    `Stimulus.get_state`, which exports every public, non-callable attribute, and
    `DynamicStimulus.get_dynamic_state`, which reads a fixed list of attributes.

    A Python object is modelled by its `__dict__`: a map from attribute name to
    value. The constructors below build that map the way the `__init__` chain of
    each class does, following Python's method resolution order. */
module StimulusState {
  import opened Errors

  /** The values the modelled stimuli store. Python ints and floats are kept apart
      because `range` and `str` treat them differently; a pandas DataFrame is its
      map from column name to column; a numpy array is known by its number of
      dimensions; any other object is opaque, and only whether it is callable
      matters. */
  datatype Value =
    | Int(i: int)
    | Float(f: real)
    | Text(s: string)
    | Names(names: seq<string>)
    | Table(columns: map<string, seq<real>>)
    | Array(ndim: nat)
    | NoneValue
    | Object(callable: bool)

  type Attrs = map<string, Value>

  predicate IsCallable(v: Value)
  {
    v.Object? && v.callable
  }

  predicate IsNumber(v: Value)
  {
    v.Int? || v.Float?
  }

  /** The numeric value of an int or a float. */
  function AsReal(v: Value): real
    requires IsNumber(v)
  {
    if v.Int? then v.i as real else v.f
  }

  /** The number stored under attribute k. */
  function Num(d: Attrs, k: string): real
    requires k in d && IsNumber(d[k])
  {
    AsReal(d[k])
  }

  // ---------------------------------------------------------------------------
  // Constructors shared by the stimulus classes

  /** `Stimulus.__init__(duration)`: a private start time, the elapsed time, the
      duration and an empty name. */
  function NewStimulus(duration: real): (d: Attrs)
    ensures "_started" in d && d["_started"] == NoneValue
    ensures "elapsed" in d && d["elapsed"] == Float(0.0)
    ensures "dynamic_parameters" !in d
  {
    map["_started" := NoneValue, "elapsed" := Float(0.0), "duration" := Float(duration),
        "name" := Text("")]
  }

  /** `DynamicStimulus.__init__`: the list of recorded parameters, `[]` when none is
      given. */
  function WithDynamicParameters(d: Attrs, dynamicParameters: Option<seq<string>>): (r: Attrs)
    ensures "dynamic_parameters" in r && r["dynamic_parameters"].Names?
    ensures dynamicParameters.None? ==> r["dynamic_parameters"].names == []
    ensures dynamicParameters.Some? ==> r["dynamic_parameters"].names == dynamicParameters.value
    ensures forall k :: k in d && k != "dynamic_parameters" ==> k in r && r[k] == d[k]
  {
    var names := if dynamicParameters.None? then [] else dynamicParameters.value;
    d["dynamic_parameters" := Names(names)]
  }

  /** The attributes `BackgroundStimulus.__init__` sets. */
  predicate BackgroundAttr(k: string)
  {
    k == "x" || k == "y" || k == "theta" || k == "_background"
  }

  /** `BackgroundStimulus.__init__`: position and angle start at the int 0. */
  function WithBackground(d: Attrs, background: Value): (r: Attrs)
    ensures "x" in r && "y" in r && "theta" in r
    ensures r["x"] == r["y"] == r["theta"] == Int(0)
    ensures "_background" in r && r["_background"] == background
    ensures forall k :: k in d && !BackgroundAttr(k) ==> k in r && r[k] == d[k]
    ensures forall k :: k in r ==> k in d || BackgroundAttr(k)
  {
    d["x" := Int(0)]["y" := Int(0)]["theta" := Int(0)]["_background" := background]
  }

  // ---------------------------------------------------------------------------
  // get_state

  /** An attribute `get_state` exports: its value is not callable and its name does
      not start with an underscore. */
  predicate Exported(k: string, v: Value)
  {
    !IsCallable(v) && |k| > 0 && k[0] != '_'
  }

  /** `get_state()`: the public, non-callable attributes with their values. The
      source tests `key[0]` after `callable(value)`, so a non-callable attribute
      with the empty name raises IndexError. */
  function GetState(d: Attrs): (r: Result<Attrs>)
    ensures r.Err? <==> "" in d && !IsCallable(d[""])
    ensures r.Err? ==> r.error == IndexError
    ensures r.Ok? ==> forall k :: k in r.value <==> k in d && !IsCallable(d[k]) && k[0] != '_'
    ensures r.Ok? ==> forall k :: k in r.value ==> r.value[k] == d[k]
  {
    if "" in d && !IsCallable(d[""]) then Err(IndexError)
    else Ok(map k | k in d && Exported(k, d[k]) :: d[k])
  }

  /** The state of a fresh stimulus holds its elapsed time, duration and name, and
      not the private start time. */
  lemma NewStimulusState(duration: real)
    ensures GetState(NewStimulus(duration))
         == Ok(map["elapsed" := Float(0.0), "duration" := Float(duration), "name" := Text("")])
  {
    var m := map["elapsed" := Float(0.0), "duration" := Float(duration), "name" := Text("")];
    FreshStateKeys(duration);
    var s := GetState(NewStimulus(duration)).value;
    assert s.Keys == m.Keys;
    assert s == m;
  }

  lemma FreshStateKeys(duration: real)
    ensures GetState(NewStimulus(duration)).Ok?
    ensures GetState(NewStimulus(duration)).value.Keys == {"elapsed", "duration", "name"}
  {
    var d := NewStimulus(duration);
    assert "" !in d;
    assert d.Keys == {"_started", "elapsed", "duration", "name"};
    assert "_started"[0] == '_' && "elapsed"[0] != '_' && "duration"[0] != '_' && "name"[0] != '_';
  }

  /** A value stored under this name is never logged: it is callable or the name is
      private. */
  predicate Unlogged(k: string, v: Value)
  {
    IsCallable(v) || (|k| > 0 && k[0] == '_')
  }

  /** Setting a private attribute, or a callable one, in place of another such
      attribute never changes the logged state. */
  lemma UnloggedAttributeIgnored(d: Attrs, k: string, v: Value)
    requires Unlogged(k, v) && (k in d ==> Unlogged(k, d[k]))
    ensures GetState(d[k := v]) == GetState(d)
  {
    var e := d[k := v];
    if GetState(d).Ok? {
      var sd, se := GetState(d).value, GetState(e).value;
      assert se.Keys == sd.Keys;
      assert forall j :: j in se ==> se[j] == sd[j];
      assert se == sd;
    }
  }

  // ---------------------------------------------------------------------------
  // get_dynamic_state

  /** The attributes a dynamic stimulus records. */
  predicate IsDynamic(d: Attrs)
  {
    "dynamic_parameters" in d && d["dynamic_parameters"].Names?
  }

  /** `get_dynamic_state()`: the value of each recorded parameter, in the order of
      `dynamic_parameters`. `getattr(self, p, 0)` looks in the object's own
      attributes `d` first, then in its class's attributes `cls` (methods such as
      `update`, and class-level constants), and gives the int 0 when neither has
      `p`. */
  function GetDynamicState(d: Attrs, cls: Attrs): (r: seq<Value>)
    requires IsDynamic(d)
    ensures |r| == |d["dynamic_parameters"].names|
    ensures forall i :: 0 <= i < |r| ==> var p := d["dynamic_parameters"].names[i];
              && (p in d ==> r[i] == d[p])
              && (p !in d && p in cls ==> r[i] == cls[p])
              && (p !in d && p !in cls ==> r[i] == Int(0))
  {
    var ps := d["dynamic_parameters"].names;
    seq(|ps|, i requires 0 <= i < |ps| =>
      if ps[i] in d then d[ps[i]] else if ps[i] in cls then cls[ps[i]] else Int(0))
  }

  /** A dynamic stimulus built without a parameter list records nothing, whatever
      its class. */
  lemma DefaultDynamicStateEmpty(d: Attrs, cls: Attrs)
    ensures GetDynamicState(WithDynamicParameters(d, None), cls) == []
  {
  }
}
