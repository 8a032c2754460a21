/** The named-parameter layer of kengine/engines.py: an `EngineAssembly` is an engine with a
    table of input aliases and a table of output aliases. An alias names a path of keys that
    is walked from the engine by repeated indexing: an ident of the engine's registry, then a
    parameter of that component or a key of the engine's attribute dict. */
module Engines {
  import opened Outcomes
  import opened Physics
  import opened Performance
  import Graph

  /** The part of an engine that indexing reads and item assignment writes: the registry,
      the nodes (whose `params` are the components' parameter dicts) and the attribute dict. */
  datatype Snapshot = Snapshot(components: map<string, Entry>, nodes: seq<Node>, attributes: map<string, real>)

  /** Where a walk can stand: on the engine itself, or on something it holds. */
  datatype Item = Whole | At(entry: Entry)

  /** Every registered node exists. */
  predicate Sound(v: Snapshot)
  {
    forall id :: id in v.components && v.components[id].Part? ==> v.components[id].node < |v.nodes|
  }

  predicate InView(v: Snapshot, item: Item)
  {
    item.At? && item.entry.Part? ==> item.entry.node < |v.nodes|
  }

  /** `item[key]`: `Engine.__getitem__` on the engine, `Component.__getitem__` on a component,
      a lookup in the attribute dict; a station or a number cannot be indexed. */
  function Index(v: Snapshot, item: Item, key: string): (r: Result<Item>)
    requires Sound(v) && InView(v, item)
    ensures r.Ok? ==> r.value.At? && InView(v, r.value)
    ensures item.Whole? ==> (r.Ok? <==> key in v.components)
    ensures item.At? && r.Ok? ==> r.value.entry.Scalar?
    ensures item.At? && item.entry.Scalar? ==> r.Err? && r.error.TypeError?
    ensures r.Err? ==> r.error == KeyError(key) || r.error.TypeError?
  {
    match item
    case Whole =>
      if key in v.components then Ok(At(v.components[key])) else Err(KeyError(key))
    case At(Part(n)) =>
      if !IsComponent(v.nodes[n].kind) then Err(TypeError("Station object has no attribute __getitem__"))
      else if key in v.nodes[n].params then Ok(At(Scalar(v.nodes[n].params[key])))
      else Err(KeyError(key))
    case At(EngineAttributes) =>
      if key in v.attributes then Ok(At(Scalar(v.attributes[key]))) else Err(KeyError(key))
    case At(Scalar(_)) =>
      Err(TypeError("float object has no attribute __getitem__"))
  }

  /** `for p in path: item = item[p]`. */
  function Walk(v: Snapshot, item: Item, path: seq<string>): (r: Result<Item>)
    requires Sound(v) && InView(v, item)
    ensures r.Ok? ==> InView(v, r.value)
    ensures r.Ok? && |path| > 0 ==> r.value.At?
    decreases |path|
  {
    if path == [] then Ok(item)
    else
      var next :- Index(v, item, path[0]);
      Walk(v, next, path[1..])
  }

  /** A walk that succeeds from the engine has at most two keys: an ident, then a key of
      that component or of the attribute dict; a third key would index a number. */
  lemma {:induction false} WalkDepth(v: Snapshot, path: seq<string>)
    requires Sound(v)
    ensures |path| == 0 ==> Walk(v, Whole, path) == Ok(Whole)
    ensures Walk(v, Whole, path).Ok? ==> |path| <= 2
    ensures |path| >= 1 && Walk(v, Whole, path).Ok? ==>
              path[0] in v.components && (|path| == 1 ==> Walk(v, Whole, path).value == At(v.components[path[0]]))
    ensures |path| == 2 && Walk(v, Whole, path).Ok? ==> Walk(v, Whole, path).value.entry.Scalar?
  {
    if |path| >= 1 {
      var first := Index(v, Whole, path[0]);
      if first.Ok? {
        var rest := path[1..];
        assert Walk(v, Whole, path) == Walk(v, first.value, rest);
        if |rest| >= 1 {
          var second := Index(v, first.value, rest[0]);
          assert Walk(v, first.value, rest) == if second.Ok? then Walk(v, second.value, rest[1..]) else Err(second.error);
          if second.Ok? && |rest| >= 2 {
            assert second.value.entry.Scalar?;
            assert Walk(v, second.value, rest[1..]).Err?;
          }
        }
      }
    }
  }

  /** One more key on the path indexes whatever the shorter path reached. */
  lemma {:induction false} WalkAppend(v: Snapshot, item: Item, path: seq<string>, key: string)
    requires Sound(v) && InView(v, item)
    ensures var r := Walk(v, item, path);
            Walk(v, item, path + [key]) == if r.Ok? then Index(v, r.value, key) else Err(r.error)
    decreases |path|
  {
    if path == [] {
      assert [] + [key] == [key];
    } else {
      assert (path + [key])[0] == path[0];
      assert (path + [key])[1..] == path[1..] + [key];
      var next := Index(v, item, path[0]);
      if next.Ok? {
        WalkAppend(v, next.value, path[1..], key);
      }
    }
  }

  /** `last = path[-1]` and the item `path[:-1]` leads to. */
  function Locate(v: Snapshot, path: seq<string>): (r: Result<(Item, string)>)
    requires Sound(v)
    ensures |path| == 0 ==> r == Err(IndexError("list index out of range"))
    ensures r.Ok? ==> |path| > 0 && InView(v, r.value.0) && r.value.1 == path[|path| - 1]
    ensures r.Ok? ==> Walk(v, Whole, path[..|path| - 1]) == Ok(r.value.0)
  {
    if |path| == 0 then Err(IndexError("list index out of range"))
    else
      var item :- Walk(v, Whole, path[..|path| - 1]);
      Ok((item, path[|path| - 1]))
  }

  /** `item[key] = value`: `Engine.__setitem__` registers the number under a new ident,
      `Component.__setitem__` overwrites a declared parameter, the attribute dict takes any
      key; a station or a number does not support item assignment. */
  function Assign(v: Snapshot, item: Item, key: string, value: real): (r: Result<Snapshot>)
    requires Sound(v) && InView(v, item)
    ensures r.Ok? ==> Sound(r.value) && |r.value.nodes| == |v.nodes| && InView(r.value, item)
    ensures r.Ok? ==> Index(r.value, item, key) == Ok(At(Scalar(value)))
    ensures item.Whole? ==> (r.Ok? <==> key !in v.components)
    ensures item.At? && item.entry.Part? && IsComponent(v.nodes[item.entry.node].kind) ==>
              (r.Ok? <==> key in v.nodes[item.entry.node].params)
    ensures item.At? && item.entry.EngineAttributes? ==> r.Ok?
  {
    match item
    case Whole =>
      if key in v.components then Err(AssertionError("Component idents must be unique"))
      else Ok(v.(components := v.components[key := Scalar(value)]))
    case At(Part(n)) =>
      if !IsComponent(v.nodes[n].kind) then Err(TypeError("Station object does not support item assignment"))
      else if key !in v.nodes[n].params then Err(LookupError(key))
      else Ok(v.(nodes := v.nodes[n := v.nodes[n].(params := v.nodes[n].params[key := value])]))
    case At(EngineAttributes) =>
      Ok(v.(attributes := v.attributes[key := value]))
    case At(Scalar(_)) =>
      Err(TypeError("float object does not support item assignment"))
  }

  /** The dict entry an item assignment writes. */
  datatype Slot = Ident(key: string) | Param(node: nat, key: string) | Attribute(key: string)

  function SlotOf(item: Item, key: string): Slot
  {
    match item
    case Whole => Ident(key)
    case At(Part(n)) => Param(n, key)
    case At(_) => Attribute(key)
  }

  /** Walking `path` from the engine looks up the entry `s`. */
  predicate Reads(v: Snapshot, path: seq<string>, s: Slot)
  {
    match s
    case Ident(k) => |path| >= 1 && path[0] == k
    case Param(n, k) =>
      |path| >= 2 && path[0] in v.components && v.components[path[0]] == Part(n) && path[1] == k
    case Attribute(k) =>
      |path| >= 2 && path[0] in v.components && v.components[path[0]] == EngineAttributes && path[1] == k
  }

  /** An item assignment changes no walk that does not look up the entry it writes. */
  lemma {:induction false} AssignFrame(v: Snapshot, item: Item, key: string, value: real, path: seq<string>)
    requires Sound(v) && InView(v, item) && Assign(v, item, key, value).Ok?
    requires !Reads(v, path, SlotOf(item, key))
    ensures Walk(Assign(v, item, key, value).value, Whole, path) == Walk(v, Whole, path)
  {
    var w := Assign(v, item, key, value).value;
    if |path| >= 1 {
      var first := Index(v, Whole, path[0]);
      assert Index(w, Whole, path[0]) == first;
      if first.Ok? {
        var rest := path[1..];
        assert Walk(v, Whole, path) == Walk(v, first.value, rest);
        assert Walk(w, Whole, path) == Walk(w, first.value, rest);
        if |rest| >= 1 {
          var second := Index(v, first.value, rest[0]);
          assert Index(w, first.value, rest[0]) == second;
          if second.Ok? {
            assert Walk(v, first.value, rest) == Walk(v, second.value, rest[1..]);
            assert Walk(w, first.value, rest) == Walk(w, second.value, rest[1..]);
            if |rest| >= 2 {
              assert Walk(v, second.value, rest[1..]) == Err(Index(v, second.value, rest[1]).error);
              assert Walk(w, second.value, rest[1..]) == Err(Index(w, second.value, rest[1]).error);
            }
          }
        }
      }
    }
  }

  /** An input alias: the path to the parameter and its optional limits. */
  datatype InputAlias = InputAlias(path: seq<string>, min: Option<real>, max: Option<real>)

  /** `get_input_alias` on a state: the alias must exist, then its path is walked. */
  function Resolve(v: Snapshot, aliases: map<string, InputAlias>, alias: string): (r: Result<Item>)
    requires Sound(v)
    ensures alias !in aliases ==> r == Err(KeyError(alias))
    ensures r.Ok? ==> |aliases[alias].path| <= 2 && InView(v, r.value)
  {
    if alias !in aliases then Err(KeyError(alias))
    else
      WalkDepth(v, aliases[alias].path);
      Walk(v, Whole, aliases[alias].path)
  }

  /** `set_input_alias(alias, value)` on a state: the alias must exist and its path must
      hold a key; all but the last key are walked and the last one is assigned. */
  function Apply(v: Snapshot, aliases: map<string, InputAlias>, alias: string, value: real): (r: Result<Snapshot>)
    requires Sound(v)
    ensures alias !in aliases ==> r == Err(KeyError(alias))
    ensures alias in aliases && aliases[alias].path == [] ==> r == Err(IndexError("list index out of range"))
    ensures r.Ok? ==> Sound(r.value) && |r.value.nodes| == |v.nodes|
  {
    if alias !in aliases then Err(KeyError(alias))
    else
      var loc :- Locate(v, aliases[alias].path);
      Assign(v, loc.0, loc.1, value)
  }

  /** The entry `Apply` writes. */
  function Written(v: Snapshot, aliases: map<string, InputAlias>, alias: string, value: real): Slot
    requires Sound(v) && Apply(v, aliases, alias, value).Ok?
  {
    var loc := Locate(v, aliases[alias].path).value;
    SlotOf(loc.0, loc.1)
  }

  /** After `set_input_alias(alias, value)` succeeds, `get_input_alias(alias)` is `value`. */
  lemma {:induction false} SetThenGet(v: Snapshot, aliases: map<string, InputAlias>, alias: string, value: real)
    requires Sound(v) && Apply(v, aliases, alias, value).Ok?
    ensures var w := Apply(v, aliases, alias, value).value;
            Resolve(w, aliases, alias) == Ok(At(Scalar(value)))
  {
    var path := aliases[alias].path;
    var loc := Locate(v, path).value;
    var w := Apply(v, aliases, alias, value).value;
    var prefix := path[..|path| - 1];
    assert path == prefix + [loc.1];
    WalkDepth(v, prefix);
    // The prefix reaches the same item after the write: it is empty, or one ident whose
    // registry entry the write keeps.
    assert Walk(w, Whole, prefix) == Ok(loc.0) by {
      if |prefix| == 1 {
        assert Walk(w, Whole, prefix) == Walk(w, At(w.components[prefix[0]]), []);
      }
    }
    WalkAppend(w, Whole, prefix, loc.1);
  }

  /** `set_input_alias` leaves every other alias as it was unless that alias's path looks up
      the entry being written. */
  lemma SetKeepsOthers(v: Snapshot, aliases: map<string, InputAlias>, alias: string, value: real, other: string)
    requires Sound(v) && Apply(v, aliases, alias, value).Ok?
    requires other in aliases ==> !Reads(v, aliases[other].path, Written(v, aliases, alias, value))
    ensures Resolve(Apply(v, aliases, alias, value).value, aliases, other) == Resolve(v, aliases, other)
  {
    if other in aliases {
      var loc := Locate(v, aliases[alias].path).value;
      AssignFrame(v, loc.0, loc.1, value, aliases[other].path);
    }
  }

  /** `set_inputs(input_dict)` on a state: every entry in turn, stopping at the first error. */
  function ApplyAll(v: Snapshot, aliases: map<string, InputAlias>, inputs: seq<(string, real)>): (r: Result<Snapshot>)
    requires Sound(v)
    ensures r.Ok? ==> Sound(r.value) && |r.value.nodes| == |v.nodes|
    ensures r.Ok? ==> forall k :: 0 <= k < |inputs| ==> inputs[k].0 in aliases
    decreases |inputs|
  {
    if inputs == [] then Ok(v)
    else
      var front := inputs[..|inputs| - 1];
      assert forall k :: 0 <= k < |front| ==> front[k] == inputs[k];
      var w :- ApplyAll(v, aliases, front);
      Apply(w, aliases, inputs[|inputs| - 1].0, inputs[|inputs| - 1].1)
  }

  /** Once an entry fails, the entries after it are never applied. */
  lemma {:induction false} ApplyAllStops(v: Snapshot, aliases: map<string, InputAlias>, inputs: seq<(string, real)>, i: nat)
    requires Sound(v) && i <= |inputs| && ApplyAll(v, aliases, inputs[..i]).Err?
    ensures ApplyAll(v, aliases, inputs) == ApplyAll(v, aliases, inputs[..i])
    decreases |inputs|
  {
    if i < |inputs| {
      var front := inputs[..|inputs| - 1];
      assert front[..i] == inputs[..i];
      ApplyAllStops(v, aliases, front, i);
    } else {
      assert inputs[..i] == inputs;
    }
  }

  /** The nodes `set_input_alias(alias, value)` on state `v` marks dirty: when the write
      succeeds and lands on a component's parameter, that component and every node it reaches
      through `deps`. */
  ghost predicate Dirtied(v: Snapshot, aliases: map<string, InputAlias>, deps: seq<seq<nat>>,
                          alias: string, value: real, i: nat)
    requires Sound(v)
  {
    && Apply(v, aliases, alias, value).Ok?
    && var loc := Locate(v, aliases[alias].path).value;
    && loc.0.At? && loc.0.entry.Part?
    && Graph.Reaches(deps, loc.0.entry.node, i)
  }

  /** The nodes `set_inputs(inputs)` on state `v` marks dirty: those each write marks, on the
      state the writes before it left; a write that raises ends the marking. */
  ghost predicate DirtiedBy(v: Snapshot, aliases: map<string, InputAlias>, deps: seq<seq<nat>>,
                            inputs: seq<(string, real)>, i: nat)
    requires Sound(v)
    decreases |inputs|
  {
    if inputs == [] then false
    else
      var front := inputs[..|inputs| - 1];
      var w := ApplyAll(v, aliases, front);
      || DirtiedBy(v, aliases, deps, front, i)
      || (w.Ok? && Dirtied(w.value, aliases, deps, inputs[|inputs| - 1].0, inputs[|inputs| - 1].1, i))
  }

  /** The dirty flags after `set_inputs(inputs)` on state `v` with flags `dirty`. */
  ghost function InputsDirty(v: Snapshot, aliases: map<string, InputAlias>, deps: seq<seq<nat>>,
                             dirty: seq<bool>, inputs: seq<(string, real)>): (r: seq<bool>)
    requires Sound(v)
    ensures |r| == |dirty|
  {
    seq(|dirty|, i requires 0 <= i < |dirty| => dirty[i] || DirtiedBy(v, aliases, deps, inputs, i))
  }

  /** Once an entry fails, the entries after it mark nothing. */
  lemma {:induction false} DirtiedByStops(v: Snapshot, aliases: map<string, InputAlias>, deps: seq<seq<nat>>,
                                          inputs: seq<(string, real)>, n: nat, i: nat)
    requires Sound(v) && n <= |inputs| && ApplyAll(v, aliases, inputs[..n]).Err?
    ensures DirtiedBy(v, aliases, deps, inputs, i) == DirtiedBy(v, aliases, deps, inputs[..n], i)
    decreases |inputs|
  {
    if n < |inputs| {
      var front := inputs[..|inputs| - 1];
      assert front[..n] == inputs[..n];
      DirtiedByStops(v, aliases, deps, front, n, i);
      ApplyAllStops(v, aliases, front, n);
    } else {
      assert inputs[..n] == inputs;
    }
  }

  /** After `set_inputs` succeeds, the alias of its last entry reads that entry's value. */
  lemma LastInputReadsBack(v: Snapshot, aliases: map<string, InputAlias>, inputs: seq<(string, real)>)
    requires Sound(v) && |inputs| > 0 && ApplyAll(v, aliases, inputs).Ok?
    ensures Resolve(ApplyAll(v, aliases, inputs).value, aliases, inputs[|inputs| - 1].0)
            == Ok(At(Scalar(inputs[|inputs| - 1].1)))
  {
    var w := ApplyAll(v, aliases, inputs[..|inputs| - 1]).value;
    SetThenGet(w, aliases, inputs[|inputs| - 1].0, inputs[|inputs| - 1].1);
  }

  /** The names of `order` are distinct and are exactly the keys of `m`: a dict's keys in
      iteration order. */
  ghost predicate Ordered<V>(order: seq<string>, m: map<string, V>)
  {
    && (forall i, j :: 0 <= i < j < |order| ==> order[i] != order[j])
    && (forall k :: k in m <==> k in order)
  }

  /** The dict built from a list of pairs: a later pair for the same key replaces an earlier one. */
  function Dict<V>(pairs: seq<(string, V)>): (r: map<string, V>)
    ensures forall k :: k in r <==> exists i :: 0 <= i < |pairs| && pairs[i].0 == k
    ensures forall i :: 0 <= i < |pairs| && (forall j :: i < j < |pairs| ==> pairs[j].0 != pairs[i].0) ==>
              r[pairs[i].0] == pairs[i].1
  {
    if pairs == [] then map[]
    else
      var front := pairs[..|pairs| - 1];
      assert forall i :: 0 <= i < |front| ==> front[i] == pairs[i];
      Dict(front)[pairs[|pairs| - 1].0 := pairs[|pairs| - 1].1]
  }

  /** `dict` of pairs with distinct names keeps every pair. */
  lemma DictOfDistinct<V>(pairs: seq<(string, V)>, names: seq<string>)
    requires |pairs| == |names| && (forall k :: 0 <= k < |names| ==> pairs[k].0 == names[k])
    requires forall i, j :: 0 <= i < j < |names| ==> names[i] != names[j]
    ensures forall a :: a in Dict(pairs) <==> a in names
    ensures forall k :: 0 <= k < |names| ==> Dict(pairs)[names[k]] == pairs[k].1
  {
    forall a | a in names ensures a in Dict(pairs) {
      var k :| 0 <= k < |names| && names[k] == a;
      assert pairs[k].0 == a;
    }
  }

  class EngineAssembly {
    /** The engine the assembly extends: `EngineAssembly` subclasses `Engine`. */
    const engine: Engine
    var inputAliases: map<string, InputAlias>
    /** The iteration order of `input_aliases`. */
    var inputOrder: seq<string>
    var outputAliases: map<string, seq<string>>
    /** The iteration order of `output_aliases`. */
    var outputOrder: seq<string>

    ghost predicate Valid()
      reads this, engine, engine.net
    {
      engine.Valid() && Ordered(inputOrder, inputAliases) && Ordered(outputOrder, outputAliases)
    }

    /** The engine's indexable state. */
    function Snap(): (v: Snapshot)
      reads this, engine
    {
      Snapshot(engine.components, engine.nodes, engine.attributes)
    }

    /** `EngineAssembly.__init__`: an engine and two empty alias tables. */
    constructor (g: GasModel)
      requires PhysicalGas(g)
      ensures Valid() && fresh(engine) && fresh(engine.net)
      ensures inputAliases == map[] && inputOrder == [] && outputAliases == map[] && outputOrder == []
      ensures engine.components == map["ENGINE" := EngineAttributes] && engine.attributes == map[]
    {
      engine := new Engine(g);
      inputAliases, inputOrder := map[], [];
      outputAliases, outputOrder := map[], [];
    }

    /** `add_input_alias`: adding a name again replaces its path and limits. */
    method AddInputAlias(name: string, path: seq<string>, min: Option<real>, max: Option<real>)
      requires Valid()
      modifies this
      ensures Valid()
      ensures inputAliases == old(inputAliases)[name := InputAlias(path, min, max)]
      ensures inputOrder == if name in old(inputAliases) then old(inputOrder) else old(inputOrder) + [name]
      ensures outputAliases == old(outputAliases) && outputOrder == old(outputOrder)
      ensures GetInputLimits(name) == Ok((min, max))
    {
      if name !in inputAliases {
        inputOrder := inputOrder + [name];
      }
      inputAliases := inputAliases[name := InputAlias(path, min, max)];
    }

    /** `add_output_alias`: adding a name again replaces its path. */
    method AddOutputAlias(name: string, path: seq<string>)
      requires Valid()
      modifies this
      ensures Valid()
      ensures outputAliases == old(outputAliases)[name := path]
      ensures outputOrder == if name in old(outputAliases) then old(outputOrder) else old(outputOrder) + [name]
      ensures inputAliases == old(inputAliases) && inputOrder == old(inputOrder)
      ensures GetOutputAlias(name) == Walk(Snap(), Whole, path)
    {
      if name !in outputAliases {
        outputOrder := outputOrder + [name];
      }
      outputAliases := outputAliases[name := path];
    }

    /** `get_input_limits`: the limits given when the alias was added. */
    function GetInputLimits(alias: string): (r: Result<(Option<real>, Option<real>)>)
      reads this
      ensures r.Ok? <==> alias in inputAliases
      ensures r.Err? ==> r.error == KeyError(alias)
      ensures r.Ok? ==> r.value.0 == inputAliases[alias].min && r.value.1 == inputAliases[alias].max
    {
      if alias !in inputAliases then Err(KeyError(alias))
      else Ok((inputAliases[alias].min, inputAliases[alias].max))
    }

    /** `get_input_alias`: the value the alias's path leads to. */
    function GetInputAlias(alias: string): (r: Result<Item>)
      reads this, engine
      requires Sound(Snap())
      ensures alias !in inputAliases ==> r == Err(KeyError(alias))
      ensures r.Ok? ==> |inputAliases[alias].path| <= 2
      ensures alias in inputAliases && inputAliases[alias].path == [] ==> r == Ok(Whole)
    {
      Resolve(Snap(), inputAliases, alias)
    }

    /** `get_output_alias`: the value the alias's path leads to. */
    function GetOutputAlias(alias: string): (r: Result<Item>)
      reads this, engine
      requires Sound(Snap())
      ensures alias !in outputAliases ==> r == Err(KeyError(alias))
      ensures r.Ok? ==> |outputAliases[alias]| <= 2
      ensures alias in outputAliases && outputAliases[alias] == [] ==> r == Ok(Whole)
    {
      if alias !in outputAliases then Err(KeyError(alias))
      else
        WalkDepth(Snap(), outputAliases[alias]);
        Walk(Snap(), Whole, outputAliases[alias])
    }

    /** `get_input_info`: one `(name, min, max)` per input alias, in iteration order. */
    method GetInputInfo() returns (info: seq<(string, Option<real>, Option<real>)>)
      requires Ordered(inputOrder, inputAliases)
      ensures |info| == |inputOrder|
      ensures forall k :: 0 <= k < |info| ==>
                info[k].0 == inputOrder[k] && GetInputLimits(info[k].0) == Ok((info[k].1, info[k].2))
      ensures forall a :: a in inputAliases <==> exists k :: 0 <= k < |info| && info[k].0 == a
    {
      info := [];
      var i := 0;
      while i < |inputOrder|
        invariant 0 <= i <= |inputOrder| && |info| == i
        invariant forall k :: 0 <= k < i ==>
                    info[k].0 == inputOrder[k] && GetInputLimits(info[k].0) == Ok((info[k].1, info[k].2))
      {
        var a := inputAliases[inputOrder[i]];
        info := info + [(inputOrder[i], a.min, a.max)];
        i := i + 1;
      }
      assert forall a :: a in inputOrder ==> exists k :: 0 <= k < |info| && info[k].0 == a by {
        forall a | a in inputOrder ensures exists k :: 0 <= k < |info| && info[k].0 == a {
          var k :| 0 <= k < |inputOrder| && inputOrder[k] == a;
          assert info[k].0 == a;
        }
      }
    }

    /** The comprehension of `get_inputs` over the names in `names`, first error first. */
    function Collect(names: seq<string>): (r: Result<map<string, Item>>)
      reads this, engine
      requires Sound(Snap())
      ensures r.Ok? <==> forall k :: 0 <= k < |names| ==> GetInputAlias(names[k]).Ok?
      ensures r.Ok? ==> forall a :: a in r.value <==> a in names
      ensures r.Ok? ==> forall a :: a in r.value ==> GetInputAlias(a) == Ok(r.value[a])
      ensures r.Err? ==> exists k :: 0 <= k < |names| && GetInputAlias(names[k]) == Err(r.error)
                          && forall j :: 0 <= j < k ==> GetInputAlias(names[j]).Ok?
    {
      if names == [] then Ok(map[])
      else
        var x :- GetInputAlias(names[0]);
        var rest :- Collect(names[1..]);
        assert forall a :: a in names <==> a == names[0] || a in names[1..];
        Ok(rest[names[0] := x])
    }

    /** `get_inputs`: every input alias with its current value. */
    function GetInputs(): (r: Result<map<string, Item>>)
      reads this, engine
      requires Sound(Snap()) && Ordered(inputOrder, inputAliases)
      ensures r.Ok? <==> forall a :: a in inputAliases ==> GetInputAlias(a).Ok?
      ensures r.Ok? ==> r.value.Keys == inputAliases.Keys
      ensures r.Ok? ==> forall a :: a in r.value ==> GetInputAlias(a) == Ok(r.value[a])
      ensures r.Err? ==> exists a :: a in inputAliases && GetInputAlias(a) == Err(r.error)
      ensures r.Err? ==> exists k :: 0 <= k < |inputOrder| && GetInputAlias(inputOrder[k]) == Err(r.error)
                          && forall j :: 0 <= j < k ==> GetInputAlias(inputOrder[j]).Ok?
    {
      var c := Collect(inputOrder);
      assert forall a :: a in inputAliases <==> exists k :: 0 <= k < |inputOrder| && inputOrder[k] == a;
      c
    }

    /** `get_outputs`: one `(name, value)` pair per output alias, in iteration order; the first
        alias that does not resolve raises its error. */
    method GetOutputs() returns (r: Result<seq<(string, Item)>>)
      requires Sound(Snap()) && Ordered(outputOrder, outputAliases)
      ensures r.Ok? <==> forall k :: 0 <= k < |outputOrder| ==> GetOutputAlias(outputOrder[k]).Ok?
      ensures r.Ok? ==> |r.value| == |outputOrder| && forall k :: 0 <= k < |outputOrder| ==>
                r.value[k] == (outputOrder[k], GetOutputAlias(outputOrder[k]).value)
      ensures r.Err? ==> exists k :: 0 <= k < |outputOrder| && GetOutputAlias(outputOrder[k]) == Err(r.error)
                          && forall j :: 0 <= j < k ==> GetOutputAlias(outputOrder[j]).Ok?
    {
      var outputs := [];
      var i := 0;
      while i < |outputOrder|
        invariant 0 <= i <= |outputOrder| && |outputs| == i
        invariant forall k :: 0 <= k < i ==>
                    GetOutputAlias(outputOrder[k]).Ok? && outputs[k] == (outputOrder[k], GetOutputAlias(outputOrder[k]).value)
      {
        var value := GetOutputAlias(outputOrder[i]);
        if value.Err? {
          return Err(value.error);
        }
        outputs := outputs + [(outputOrder[i], value.value)];
        i := i + 1;
      }
      r := Ok(outputs);
    }

    /** `set_input_alias`: the alias's path without its last key is walked from the engine,
        and the last key is assigned there; a component parameter goes through
        `Component.__setitem__`, which marks the component and its dependents dirty. */
    method SetInputAlias(alias: string, value: real, ghost rank: seq<nat>) returns (s: Status)
      requires Valid() && Graph.Ranked(engine.net.dependents, rank)
      modifies engine, engine.net
      ensures Valid() && GraphKept()
      ensures var r := Apply(old(Snap()), inputAliases, alias, value);
              && (s.Success? <==> r.Ok?)
              && (r.Ok? ==> Snap() == r.value)
              && (r.Err? ==> s == Failure(r.error) && unchanged(engine) && unchanged(engine.net))
      ensures forall i :: 0 <= i < |engine.net.dirty| ==>
                engine.net.dirty[i] == (old(engine.net.dirty)[i] || Dirtied(old(Snap()), inputAliases, engine.net.dependents, alias, value, i))
    {
      if alias !in inputAliases {
        return Failure(KeyError(alias));
      }
      var path := inputAliases[alias].path;
      if |path| == 0 {
        return Failure(IndexError("list index out of range"));
      }
      var last := path[|path| - 1];
      var item := Walk(Snap(), Whole, path[..|path| - 1]);
      if item.Err? {
        return Failure(item.error);
      }
      match item.value
      case Whole =>
        s := engine.SetItem(last, Scalar(value));
      case At(Part(n)) =>
        if IsComponent(engine.nodes[n].kind) {
          s := engine.SetParam(n, last, value, rank);
        } else {
          s := Failure(TypeError("Station object does not support item assignment"));
        }
      case At(EngineAttributes) =>
        engine.attributes := engine.attributes[last := value];
        s := Success;
      case At(Scalar(_)) =>
        s := Failure(TypeError("float object does not support item assignment"));
    }

    /** The dependency graph is as it was and no dirty flag was cleared: what writing an
        input does to the network. */
    twostate predicate GraphKept()
      reads engine.net
    {
      && engine.net.dependents == old(engine.net.dependents) && engine.net.precedents == old(engine.net.precedents)
      && engine.net.trace == old(engine.net.trace)
      && |engine.net.dirty| == |old(engine.net.dirty)|
      && forall i :: 0 <= i < |engine.net.dirty| && old(engine.net.dirty)[i] ==> engine.net.dirty[i]
    }

    /** `set_inputs`: the entries of `input_dict` in its iteration order. */
    method SetInputs(inputs: seq<(string, real)>, ghost rank: seq<nat>) returns (s: Status)
      requires Valid() && Graph.Ranked(engine.net.dependents, rank)
      modifies engine, engine.net
      ensures Valid() && GraphKept()
      ensures var r := ApplyAll(old(Snap()), inputAliases, inputs);
              && (s.Success? <==> r.Ok?)
              && (r.Ok? ==> Snap() == r.value)
              && (r.Err? ==> s == Failure(r.error))
      ensures engine.net.dirty == InputsDirty(old(Snap()), inputAliases, engine.net.dependents, old(engine.net.dirty), inputs)
      ensures s.Failure? ==> exists n :: 0 <= n < |inputs| && ApplyAll(old(Snap()), inputAliases, inputs[..n]) == Ok(Snap())
                                         && ApplyAll(old(Snap()), inputAliases, inputs[..n + 1]) == Err(s.error)
    {
      ghost var v0, dirty0 := Snap(), engine.net.dirty;
      var i := 0;
      while i < |inputs|
        invariant 0 <= i <= |inputs|
        invariant Valid() && GraphKept()
        invariant ApplyAll(v0, inputAliases, inputs[..i]) == Ok(Snap())
        invariant engine.net.dirty == InputsDirty(v0, inputAliases, engine.net.dependents, dirty0, inputs[..i])
      {
        assert inputs[..i + 1][..i] == inputs[..i];
        ghost var before, flags := Snap(), engine.net.dirty;
        s := SetInputAlias(inputs[i].0, inputs[i].1, rank);
        ghost var deps := engine.net.dependents;
        forall j | 0 <= j < |dirty0|
          ensures engine.net.dirty[j] == InputsDirty(v0, inputAliases, deps, dirty0, inputs[..i + 1])[j]
        {
          assert DirtiedBy(v0, inputAliases, deps, inputs[..i + 1], j)
                 == (DirtiedBy(v0, inputAliases, deps, inputs[..i], j)
                     || Dirtied(before, inputAliases, deps, inputs[i].0, inputs[i].1, j));
          assert flags[j] == InputsDirty(v0, inputAliases, deps, dirty0, inputs[..i])[j];
        }
        assert engine.net.dirty == InputsDirty(v0, inputAliases, deps, dirty0, inputs[..i + 1]);
        if s.Failure? {
          assert Snap() == before;
          assert ApplyAll(v0, inputAliases, inputs[..i]) == Ok(Snap());
          assert ApplyAll(v0, inputAliases, inputs[..i + 1]) == Err(s.error);
          ApplyAllStops(v0, inputAliases, inputs, i + 1);
          forall j | 0 <= j < |dirty0|
            ensures DirtiedBy(v0, inputAliases, engine.net.dependents, inputs, j)
                    == DirtiedBy(v0, inputAliases, engine.net.dependents, inputs[..i + 1], j)
          {
            DirtiedByStops(v0, inputAliases, engine.net.dependents, inputs, i + 1, j);
          }
          return;
        }
        i := i + 1;
      }
      assert inputs[..i] == inputs;
      s := Success;
    }

    /** `calculate(input_dict)`: the inputs are applied, the engine is updated, and the outputs
        are returned keyed by output alias. `u` is the update's outcome, `f` its cascade and
        `h` its run of the fired nodes' hooks. */
    method Calculate(inputs: seq<(string, real)>, ghost rank: seq<nat>)
      returns (r: Result<map<string, Item>>, ghost u: Status, ghost f: Graph.Firing, ghost h: (Effect, nat))
      requires Valid() && Graph.Ranked(engine.net.dependents, rank)
      modifies engine, engine.net
      ensures Valid()
      ensures engine.net.dependents == old(engine.net.dependents) && engine.net.precedents == old(engine.net.precedents)
      ensures var a := ApplyAll(old(Snap()), inputAliases, inputs);
              && (a.Err? ==> r == Err(a.error))
              && (r.Ok? ==> a.Ok?)
      ensures ApplyAll(old(Snap()), inputAliases, inputs).Err? ==>
                exists n :: 0 <= n < |inputs| && ApplyAll(old(Snap()), inputAliases, inputs[..n]) == Ok(Snap())
                            && ApplyAll(old(Snap()), inputAliases, inputs[..n + 1]).Err?
      ensures r.Ok? <==>
                ApplyAll(old(Snap()), inputAliases, inputs).Ok? && u.Success?
                && forall a :: a in outputAliases ==> GetOutputAlias(a).Ok?
      ensures r.Ok? ==> r.value.Keys == outputAliases.Keys
      ensures r.Ok? ==> forall a :: a in r.value ==> GetOutputAlias(a) == Ok(r.value[a])
      ensures |old(engine.net.trace)| <= |engine.net.trace|
      ensures ApplyAll(old(Snap()), inputAliases, inputs).Ok? ==>
                var a := ApplyAll(old(Snap()), inputAliases, inputs).value;
                var deps := engine.net.dependents;
                var marked := MarkReachable(deps, InputsDirty(old(Snap()), inputAliases, deps, old(engine.net.dirty), inputs), engine.environment);
                && Graph.Fits(deps, engine.net.precedents, marked)
                && f == Graph.Fire(deps, engine.net.precedents, rank, marked, engine.environment)
                && engine.net.trace == old(engine.net.trace) + f.trace
                && a.components == engine.components && |a.nodes| == |engine.nodes| && Linked(a.nodes)
                && (forall k :: 0 <= k < |f.trace| ==> f.trace[k] < |a.nodes|)
                && h == RunHooks(engine.gas, a.nodes, engine.net.precedents, f.trace)
                && engine.nodes == h.0.nodes
                && (h.0.status.Failure? ==> u == h.0.status)
                && (u.Success? <==>
                      && h.0.status.Success? && f.ok
                      && var t := NozzleTerms(engine.nodes, engine.nozzles);
                      && "v0" in engine.nodes[engine.environment].params && t.Ok?
                      && EngineFuelFlow(engine.gas, engine.nodes, engine.components).Ok?
                      && ThrustSum(t.value.0, t.value.1, engine.nodes[engine.environment].params["v0"]) != 0.0)
                && (u.Failure? ==> r == Err(u.error))
      ensures r.Ok? ==>
                var a := ApplyAll(old(Snap()), inputAliases, inputs).value;
                var t := NozzleTerms(engine.nodes, engine.nozzles);
                var ff := EngineFuelFlow(engine.gas, engine.nodes, engine.components);
                && t.Ok? && "v0" in engine.nodes[engine.environment].params && ff.Ok?
                && engine.thrust == Some(ThrustSum(t.value.0, t.value.1, engine.nodes[engine.environment].params["v0"]))
                && "THRUST" in engine.attributes && engine.attributes["THRUST"] == engine.thrust.value
                && SfcRelation(engine.attributes) && engine.attributes["FUEL_FLOW"] == ff.value
                && engine.attributes == AttributesAfter(a.attributes["THRUST" := engine.thrust.value], ff).0
    {
      var s := SetInputs(inputs, rank);
      if s.Failure? {
        r, u, f, h := Err(s.error), s, Graph.Firing(engine.net.dirty, [], true), (Effect(engine.nodes, s), 0);
        return;
      }
      ghost var a := ApplyAll(old(Snap()), inputAliases, inputs).value;
      assert Snap() == a;
      ghost var dirty := engine.net.dirty;
      assert dirty == InputsDirty(old(Snap()), inputAliases, engine.net.dependents, old(engine.net.dirty), inputs);
      assert engine.net.trace == old(engine.net.trace);
      r, u, f, h := UpdateOutputs(rank);
      assert f == Graph.Fire(engine.net.dependents, engine.net.precedents, rank,
                             MarkReachable(engine.net.dependents, dirty, engine.environment), engine.environment);
      assert h == RunHooks(engine.gas, a.nodes, engine.net.precedents, f.trace);
    }

    /** The part of `calculate` after the inputs are set: `update()`, then the outputs keyed
        by output alias. `u` is the update's outcome, `f` its cascade and `h` its run of the
        fired nodes' hooks. */
    method UpdateOutputs(ghost rank: seq<nat>)
      returns (r: Result<map<string, Item>>, ghost u: Status, ghost f: Graph.Firing, ghost h: (Effect, nat))
      requires Valid() && Graph.Ranked(engine.net.dependents, rank)
      modifies engine, engine.net
      ensures Valid()
      ensures engine.net.dependents == old(engine.net.dependents) && engine.net.precedents == old(engine.net.precedents)
      ensures engine.components == old(engine.components) && |engine.nodes| == |old(engine.nodes)|
      ensures |old(engine.net.trace)| <= |engine.net.trace|
      ensures var marked := MarkReachable(engine.net.dependents, old(engine.net.dirty), engine.environment);
              Graph.Fits(engine.net.dependents, engine.net.precedents, marked)
              && f == Graph.Fire(engine.net.dependents, engine.net.precedents, rank, marked, engine.environment)
      ensures engine.net.trace == old(engine.net.trace) + f.trace
      ensures forall k :: 0 <= k < |f.trace| ==> f.trace[k] < |old(engine.nodes)|
      ensures h == RunHooks(engine.gas, old(engine.nodes), engine.net.precedents, f.trace)
      ensures engine.nodes == h.0.nodes
      ensures h.0.status.Failure? ==> u == h.0.status
      ensures h.0.status.Success? && !f.ok ==> u == Failure(AssertionError("If a precedent tells us to update we must be dirty"))
      ensures h.0.status.Success? && f.ok ==> engine.Aggregated(u)
      ensures var t := NozzleTerms(engine.nodes, engine.nozzles);
              var ff := EngineFuelFlow(engine.gas, engine.nodes, engine.components);
              var env := engine.nodes[engine.environment].params;
              && (u.Success? <==>
                    && h.0.status.Success? && f.ok && "v0" in env && t.Ok? && ff.Ok?
                    && ThrustSum(t.value.0, t.value.1, env["v0"]) != 0.0)
              && (u.Success? ==>
                    && engine.thrust == Some(ThrustSum(t.value.0, t.value.1, env["v0"]))
                    && "THRUST" in engine.attributes && engine.attributes["THRUST"] == engine.thrust.value
                    && SfcRelation(engine.attributes) && engine.attributes["FUEL_FLOW"] == ff.value
                    && engine.attributes == AttributesAfter(old(engine.attributes)["THRUST" := engine.thrust.value], ff).0)
      ensures u.Failure? ==> r == Err(u.error)
      ensures u.Success? ==> (r.Ok? <==> forall a :: a in outputAliases ==> GetOutputAlias(a).Ok?)
      ensures u.Success? && r.Err? ==>
                exists k :: 0 <= k < |outputOrder| && GetOutputAlias(outputOrder[k]) == Err(r.error)
                            && forall j :: 0 <= j < k ==> GetOutputAlias(outputOrder[j]).Ok?
      ensures r.Ok? ==> r.value.Keys == outputAliases.Keys
      ensures r.Ok? ==> forall a :: a in r.value ==> GetOutputAlias(a) == Ok(r.value[a])
    {
      var s;
      s, f, h := engine.Update(rank);
      u := s;
      if s.Failure? {
        r := Err(s.error);
        return;
      }
      label updated:
      r := OutputDict();
      assert unchanged@updated(engine, engine.net);
    }

    /** The output pairs of `get_outputs`, gathered into a dict keyed by output alias. */
    method OutputDict() returns (r: Result<map<string, Item>>)
      requires Sound(Snap()) && Ordered(outputOrder, outputAliases)
      ensures r.Ok? <==> forall a :: a in outputAliases ==> GetOutputAlias(a).Ok?
      ensures r.Ok? ==> r.value.Keys == outputAliases.Keys
      ensures r.Ok? ==> forall a :: a in r.value ==> GetOutputAlias(a) == Ok(r.value[a])
      ensures r.Err? ==> exists a :: a in outputAliases && GetOutputAlias(a) == Err(r.error)
      ensures r.Err? ==> exists k :: 0 <= k < |outputOrder| && GetOutputAlias(outputOrder[k]) == Err(r.error)
                          && forall j :: 0 <= j < k ==> GetOutputAlias(outputOrder[j]).Ok?
    {
      var outputs := GetOutputs();
      if outputs.Err? {
        return Err(outputs.error);
      }
      var pairs := outputs.value;
      DictOfDistinct(pairs, outputOrder);
      var d := Dict(pairs);
      forall a | a in d ensures GetOutputAlias(a) == Ok(d[a]) {
        var k :| 0 <= k < |outputOrder| && outputOrder[k] == a;
      }
      r := Ok(d);
    }
  }
}
