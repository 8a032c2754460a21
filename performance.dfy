/** The engine container of kengine/performance.py: the components and stations of one engine
    in an arena, the wiring methods that build the dependency graph, the parameter store of
    `Component`, the in-place `calculate` of every component kind, and `Engine.update` with
    the thrust and specific-fuel-consumption aggregation. */
module Performance {
  import opened Outcomes
  import opened Physics
  import Graph

  /** The classes of Calculable the engine is built from. */
  datatype Kind = Station | Environment | Intake | Compressor | Turbine | Combustor | Splitter | Shaft | Nozzle

  /** `InletComponent` and its subclasses: they have `connect_upstream`. */
  predicate HasInlet(k: Kind)
  {
    k == Compressor || k == Turbine || k == Combustor || k == Nozzle
  }

  /** `ExitComponent` and its subclasses: they have `connect_downstream`. */
  predicate HasExit(k: Kind)
  {
    k == Intake || k == Compressor || k == Turbine || k == Combustor
  }

  /** `FlowComponent`: both. */
  predicate IsFlowComponent(k: Kind)
  {
    k == Compressor || k == Turbine || k == Combustor
  }

  /** Subclasses of `Component`, the ones with a parameter dict. */
  predicate IsComponent(k: Kind)
  {
    k != Station && k != Environment
  }

  /** The attributes a Calculable holds on other nodes, set by the wiring methods;
      `None` is an attribute never set. `exit` doubles as the splitter's `exit0`. */
  datatype Links = Links(inlet: Option<nat>, exit: Option<nat>, exit1: Option<nat>,
                         ambient: Option<nat>, shaft: Option<nat>, driver: Option<nat>)

  const NoLinks := Links(None, None, None, None, None, None)

  /** What `Engine.components` maps an ident to: a node, the engine's own attribute dict
      (pre-registered as 'ENGINE'), or a bare number stored through a one-key alias path. */
  datatype Entry = Part(node: nat) | EngineAttributes | Scalar(value: real)

  predicate LinkIn(o: Option<nat>, size: nat)
  {
    o.Some? ==> o.value < size
  }

  predicate LinksIn(l: Links, size: nat)
  {
    LinkIn(l.inlet, size) && LinkIn(l.exit, size) && LinkIn(l.exit1, size)
    && LinkIn(l.ambient, size) && LinkIn(l.shaft, size) && LinkIn(l.driver, size)
  }

  /** The net thrust of the nozzles: the sum of `w * (vj - v0)` in nozzle order. Nozzles
      whose jet leaves at the free-stream speed give no net thrust. */
  function ThrustSum(ws: seq<real>, vjs: seq<real>, v0: real): (r: real)
    requires |ws| == |vjs|
    ensures (forall k :: 0 <= k < |vjs| ==> vjs[k] == v0) ==> r == 0.0
  {
    if ws == [] then 0.0
    else ThrustSum(ws[..|ws| - 1], vjs[..|vjs| - 1], v0) + ws[|ws| - 1] * (vjs[|vjs| - 1] - v0)
  }

  /** Each nozzle adds its own term: the thrust of two groups of nozzles is the sum of theirs. */
  lemma {:induction false} ThrustSumAppend(w1: seq<real>, v1: seq<real>, w2: seq<real>, v2: seq<real>, v0: real)
    requires |w1| == |v1| && |w2| == |v2|
    ensures ThrustSum(w1 + w2, v1 + v2, v0) == ThrustSum(w1, v1, v0) + ThrustSum(w2, v2, v0)
    decreases |w2|
  {
    if w2 == [] {
      assert w1 + w2 == w1 && v1 + v2 == v1;
    } else {
      var n := |w2| - 1;
      var t := w2[n] * (v2[n] - v0);
      assert (w1 + w2)[..|w1 + w2| - 1] == w1 + w2[..n];
      assert (v1 + v2)[..|v1 + v2| - 1] == v1 + v2[..n];
      assert ThrustSum(w1 + w2, v1 + v2, v0) == ThrustSum(w1 + w2[..n], v1 + v2[..n], v0) + t;
      assert ThrustSum(w2, v2, v0) == ThrustSum(w2[..n], v2[..n], v0) + t;
      ThrustSumAppend(w1, v1, w2[..n], v2[..n], v0);
    }
  }

  /** One Calculable of the engine: its class, the references its wiring methods set, the
      station fields p, t, w (used by stations and the environment), its parameter dict
      (`Component.attributes`, or the environment's attribute bag), and what `calculate`
      leaves on a shaft (`power`) or on a nozzle (`vj`, `athroat`, `throat_ps`). */
  datatype Node = Node(kind: Kind, links: Links, flow: Flow, params: map<string, real>,
                       power: Option<real>, vj: Option<real>, athroat: Option<real>, throatPs: Option<real>)

  /** A newly constructed Calculable: stations start at p = t = w = 0 and have no parameters. */
  function Blank(kind: Kind, attrs: map<string, real>): Node
  {
    Node(kind, NoLinks, Flow(0.0, 0.0, 0.0), if kind == Station then map[] else attrs, None, None, None, None)
  }

  /** Every reference held by a node names a node of the arena. */
  ghost predicate Linked(nodes: seq<Node>)
  {
    forall n :: 0 <= n < |nodes| ==> LinksIn(nodes[n].links, |nodes|)
  }

  /** The same nodes, of the same classes, wired the same way. */
  ghost predicate SameWiring(a: seq<Node>, b: seq<Node>)
  {
    |a| == |b| && forall n :: 0 <= n < |a| ==> a[n].kind == b[n].kind && a[n].links == b[n].links
  }

  function WithLinks(nodes: seq<Node>, n: nat, l: Links): (r: seq<Node>)
    requires n < |nodes|
    ensures |r| == |nodes| && forall k :: 0 <= k < |r| ==> r[k].kind == nodes[k].kind
    ensures Linked(nodes) && LinksIn(l, |nodes|) ==> Linked(r)
  {
    nodes[n := nodes[n].(links := l)]
  }

  function WithFlow(nodes: seq<Node>, n: nat, f: Flow): (r: seq<Node>)
    requires n < |nodes|
    ensures SameWiring(nodes, r) && (Linked(nodes) ==> Linked(r))
  {
    nodes[n := nodes[n].(flow := f)]
  }

  /** `self.ambient.MACH` as an intake reads it: the ambient must be the environment, whose
      attribute lookup raises KeyError for a Mach number not yet calculated. */
  function AmbientMach(nodes: seq<Node>, n: nat): (r: Result<real>)
    requires Linked(nodes) && n < |nodes|
    ensures r.Ok? <==> nodes[n].links.ambient.Some? && nodes[nodes[n].links.ambient.value].kind == Environment
                       && "MACH" in nodes[nodes[n].links.ambient.value].params
    ensures r.Ok? ==> r.value == nodes[nodes[n].links.ambient.value].params["MACH"]
  {
    var a := nodes[n].links.ambient;
    if a.None? then Err(AttributeError("ambient"))
    else if nodes[a.value].kind != Environment then Err(AttributeError("MACH"))
    else if "MACH" !in nodes[a.value].params then Err(KeyError("MACH"))
    else Ok(nodes[a.value].params["MACH"])
  }

  /** The inlet and exit flows of a shaft's consumers, in precedent order: each must be a
      compressor (the only class with `shaft_power`) with both stations connected. */
  function ConsumerFlows(nodes: seq<Node>, ps: seq<nat>): (r: Result<(seq<Flow>, seq<Flow>)>)
    requires Linked(nodes) && forall k :: 0 <= k < |ps| ==> ps[k] < |nodes|
    ensures r.Ok? <==> forall k :: 0 <= k < |ps| ==>
              nodes[ps[k]].kind == Compressor && nodes[ps[k]].links.inlet.Some? && nodes[ps[k]].links.exit.Some?
    ensures r.Ok? ==> |r.value.0| == |ps| && |r.value.1| == |ps|
    ensures r.Ok? ==> forall k :: 0 <= k < |ps| ==>
              r.value.0[k] == nodes[nodes[ps[k]].links.inlet.value].flow
              && r.value.1[k] == nodes[nodes[ps[k]].links.exit.value].flow
  {
    if ps == [] then Ok(([], []))
    else
      match ConsumerFlows(nodes, ps[..|ps| - 1])
      case Err(e) => Err(e)
      case Ok(fs) =>
        var c := ps[|ps| - 1];
        if nodes[c].kind != Compressor then Err(AttributeError("shaft_power"))
        else if nodes[c].links.inlet.None? then Err(AttributeError("inlet"))
        else if nodes[c].links.exit.None? then Err(AttributeError("exit"))
        else Ok((fs.0 + [nodes[nodes[c].links.inlet.value].flow], fs.1 + [nodes[nodes[c].links.exit.value].flow]))
  }

  /** The inlet mass flow and jet velocity of every nozzle, in nozzle order; a nozzle without
      an inlet or not yet calculated raises AttributeError. */
  function NozzleTerms(nodes: seq<Node>, nz: seq<nat>): (r: Result<(seq<real>, seq<real>)>)
    requires Linked(nodes) && forall k :: 0 <= k < |nz| ==> nz[k] < |nodes|
    ensures r.Ok? <==> forall k :: 0 <= k < |nz| ==> nodes[nz[k]].links.inlet.Some? && nodes[nz[k]].vj.Some?
    ensures r.Ok? ==> |r.value.0| == |nz| && |r.value.1| == |nz|
    ensures r.Ok? ==> forall k :: 0 <= k < |nz| ==>
              r.value.0[k] == nodes[nodes[nz[k]].links.inlet.value].flow.w && r.value.1[k] == nodes[nz[k]].vj.value
  {
    if nz == [] then Ok(([], []))
    else
      match NozzleTerms(nodes, nz[..|nz| - 1])
      case Err(e) => Err(e)
      case Ok(ts) =>
        var z := nz[|nz| - 1];
        if nodes[z].links.inlet.None? then Err(AttributeError("inlet"))
        else if nodes[z].vj.None? then Err(AttributeError("vj"))
        else Ok((ts.0 + [nodes[nodes[z].links.inlet.value].flow.w], ts.1 + [nodes[z].vj.value]))
  }

  /** One more nozzle extends the terms by its own. */
  lemma NozzleTermsStep(nodes: seq<Node>, nz: seq<nat>, i: nat)
    requires Linked(nodes) && forall k :: 0 <= k < |nz| ==> nz[k] < |nodes|
    requires i < |nz| && NozzleTerms(nodes, nz[..i]).Ok?
    requires nodes[nz[i]].links.inlet.Some? && nodes[nz[i]].vj.Some?
    ensures var t := NozzleTerms(nodes, nz[..i]).value;
            NozzleTerms(nodes, nz[..i + 1])
              == Ok((t.0 + [nodes[nodes[nz[i]].links.inlet.value].flow.w], t.1 + [nodes[nz[i]].vj.value]))
  {
    assert nz[..i + 1][..i] == nz[..i];
  }

  /** One more term extends the sum by itself. */
  lemma ThrustSumStep(ws: seq<real>, vjs: seq<real>, w: real, vj: real, v0: real)
    requires |ws| == |vjs|
    ensures ThrustSum(ws + [w], vjs + [vj], v0) == ThrustSum(ws, vjs, v0) + w * (vj - v0)
  {
    assert (ws + [w])[..|ws|] == ws && (vjs + [vj])[..|vjs|] == vjs;
  }

  /** A nozzle list whose prefix already fails to give its terms fails as a whole. */
  lemma {:induction false} NozzleTermsPrefix(nodes: seq<Node>, nz: seq<nat>, i: nat)
    requires Linked(nodes) && forall k :: 0 <= k < |nz| ==> nz[k] < |nodes|
    requires i <= |nz| && NozzleTerms(nodes, nz[..i]).Err?
    ensures NozzleTerms(nodes, nz) == NozzleTerms(nodes, nz[..i])
    decreases |nz|
  {
    if i < |nz| {
      var front := nz[..|nz| - 1];
      assert front[..i] == nz[..i];
      NozzleTermsPrefix(nodes, front, i);
    } else {
      assert nz[..i] == nz;
    }
  }

  /** `self['COMBUSTOR'].fuel_flow()`: the entry registered as 'COMBUSTOR' must be a connected
      combustor, and then the fuel flow is that of its two stations. */
  function EngineFuelFlow(g: GasModel, nodes: seq<Node>, components: map<string, Entry>): (r: Result<real>)
    requires PhysicalGas(g) && Linked(nodes)
    requires forall id :: id in components && components[id].Part? ==> components[id].node < |nodes|
    ensures r.Ok? ==> "COMBUSTOR" in components && components["COMBUSTOR"].Part?
    ensures r.Ok? ==>
              var c := nodes[components["COMBUSTOR"].node];
              c.kind == Combustor && c.links.inlet.Some? && c.links.exit.Some?
              && r == FuelFlow(g, nodes[c.links.inlet.value].flow, nodes[c.links.exit.value].flow, c.params)
    ensures "COMBUSTOR" !in components ==> r == Err(KeyError("COMBUSTOR"))
    ensures "COMBUSTOR" in components && !(components["COMBUSTOR"].Part? && nodes[components["COMBUSTOR"].node].kind == Combustor) ==>
              r == Err(AttributeError("fuel_flow"))
    ensures "COMBUSTOR" in components && components["COMBUSTOR"].Part? ==>
              var c := nodes[components["COMBUSTOR"].node];
              c.kind == Combustor && c.links.inlet.Some? && c.links.exit.Some? ==>
                r == FuelFlow(g, nodes[c.links.inlet.value].flow, nodes[c.links.exit.value].flow, c.params)
    ensures "COMBUSTOR" in components && components["COMBUSTOR"].Part? ==>
              var c := nodes[components["COMBUSTOR"].node];
              c.kind == Combustor ==>
                && (c.links.inlet.None? ==> r == Err(AttributeError("inlet")))
                && (c.links.inlet.Some? && c.links.exit.None? ==> r == Err(AttributeError("exit")))
  {
    if "COMBUSTOR" !in components then Err(KeyError("COMBUSTOR"))
    else
      var e := components["COMBUSTOR"];
      if !(e.Part? && nodes[e.node].kind == Combustor) then Err(AttributeError("fuel_flow"))
      else
        var c := nodes[e.node];
        if c.links.inlet.None? then Err(AttributeError("inlet"))
        else if c.links.exit.None? then Err(AttributeError("exit"))
        else FuelFlow(g, nodes[c.links.inlet.value].flow, nodes[c.links.exit.value].flow, c.params)
  }

  /** The engine attributes agree with SFC = FUEL_FLOW / THRUST. */
  predicate SfcRelation(attrs: map<string, real>)
  {
    "SFC" in attrs && "THRUST" in attrs && "FUEL_FLOW" in attrs
    && attrs["SFC"] * attrs["THRUST"] == attrs["FUEL_FLOW"]
  }

  /** `calculate_attributes` on the attribute dict `attrs`, given the engine's fuel flow `ff`:
      the dict afterwards and the outcome. The fuel flow is stored before 'THRUST' is looked
      up, so it stays when the lookup or the division raises. */
  function AttributesAfter(attrs: map<string, real>, ff: Result<real>): (r: (map<string, real>, Status))
    ensures r.1.Success? <==> ff.Ok? && "THRUST" in attrs && attrs["THRUST"] != 0.0
    ensures ff.Err? ==> r == (attrs, Failure(ff.error))
    ensures ff.Ok? && "THRUST" !in attrs ==> r.1 == Failure(KeyError("THRUST"))
    ensures ff.Ok? && "THRUST" in attrs && attrs["THRUST"] == 0.0 ==> r.1 == Failure(ZeroDivision)
    ensures ff.Ok? ==> "FUEL_FLOW" in r.0 && r.0["FUEL_FLOW"] == ff.value
    ensures r.1.Success? ==> r.0.Keys == attrs.Keys + {"FUEL_FLOW", "SFC"} && SfcRelation(r.0)
    ensures r.1.Failure? ==> r.0.Keys == attrs.Keys + (if ff.Ok? then {"FUEL_FLOW"} else {})
    ensures forall k :: k in attrs && k != "FUEL_FLOW" && k != "SFC" ==> k in r.0 && r.0[k] == attrs[k]
  {
    if ff.Err? then (attrs, Failure(ff.error))
    else
      var a := attrs["FUEL_FLOW" := ff.value];
      if "THRUST" !in a then (a, Failure(KeyError("THRUST")))
      else
        var sfc := Div(ff.value, a["THRUST"]);
        if sfc.Err? then (a, Failure(sfc.error))
        else (a["SFC" := sfc.value], Success)
  }

  /** The flags after `make_dirty` on `n`. */
  ghost function MarkReachable(deps: seq<seq<nat>>, dirty: seq<bool>, n: nat): (r: seq<bool>)
    ensures |r| == |dirty|
  {
    seq(|dirty|, i requires 0 <= i < |dirty| => dirty[i] || Graph.Reaches(deps, n, i))
  }

  /** The parts of an engine its wiring methods change: the nodes' references and the
      dependents and precedents lists of the graph. */
  datatype Wiring = Wiring(nodes: seq<Node>, deps: seq<seq<nat>>, precs: seq<seq<nat>>)

  /** `connect_downstream(exit)` on component `c`: `c` holds `exit` and the exit becomes a
      dependent of `c`. */
  function Downstream(w: Wiring, c: nat, exit: nat): (r: Wiring)
    requires c < |w.nodes| && c < |w.deps| && exit < |w.precs|
    ensures |r.nodes| == |w.nodes| && |r.deps| == |w.deps| && |r.precs| == |w.precs|
    ensures r.nodes[c].links.exit == Some(exit) && r.deps[c] == w.deps[c] + [exit]
    ensures r.precs[exit] == w.precs[exit] + [c]
    ensures forall k :: 0 <= k < |w.deps| && k != c ==> r.deps[k] == w.deps[k]
    ensures forall k :: 0 <= k < |w.precs| && k != exit ==> r.precs[k] == w.precs[k]
    ensures forall k :: 0 <= k < |w.nodes| ==> r.nodes[k].kind == w.nodes[k].kind
  {
    Wiring(WithLinks(w.nodes, c, w.nodes[c].links.(exit := Some(exit))),
           w.deps[c := w.deps[c] + [exit]], w.precs[exit := w.precs[exit] + [c]])
  }

  /** `connect_upstream(inlet)` on component `c`: `c` holds `inlet` and becomes its dependent. */
  function Upstream(w: Wiring, c: nat, inlet: nat): (r: Wiring)
    requires c < |w.nodes| && inlet < |w.deps| && c < |w.precs|
    ensures |r.nodes| == |w.nodes| && |r.deps| == |w.deps| && |r.precs| == |w.precs|
    ensures r.nodes[c].links.inlet == Some(inlet) && r.precs[c] == w.precs[c] + [inlet]
    ensures r.deps[inlet] == w.deps[inlet] + [c]
    ensures forall k :: 0 <= k < |w.deps| && k != inlet ==> r.deps[k] == w.deps[k]
    ensures forall k :: 0 <= k < |w.precs| && k != c ==> r.precs[k] == w.precs[k]
    ensures forall k :: 0 <= k < |w.nodes| ==> r.nodes[k].kind == w.nodes[k].kind
  {
    Wiring(WithLinks(w.nodes, c, w.nodes[c].links.(inlet := Some(inlet))),
           w.deps[inlet := w.deps[inlet] + [c]], w.precs[c := w.precs[c] + [inlet]])
  }

  /** The second half of `Engine.connect_flows` on station `stn`: `connect_downstream` on the
      upstream entry, then `connect_upstream` on the downstream one. The first entry that
      lacks its method raises AttributeError and leaves what was already wired. */
  function JoinWiring(w: Wiring, u: Entry, d: Entry, stn: nat): (r: (Wiring, Status))
    requires |w.deps| == |w.nodes| && |w.precs| == |w.nodes| && stn < |w.nodes|
    requires (u.Part? ==> u.node < |w.nodes|) && (d.Part? ==> d.node < |w.nodes|) && w.nodes[stn].kind == Station
    ensures |r.0.nodes| == |w.nodes| && |r.0.deps| == |w.deps| && |r.0.precs| == |w.precs|
    ensures forall k :: 0 <= k < |w.nodes| ==> r.0.nodes[k].kind == w.nodes[k].kind
    ensures r.1.Success? <==> u.Part? && HasExit(w.nodes[u.node].kind) && d.Part? && HasInlet(w.nodes[d.node].kind)
    ensures r.1.Success? ==>
              && r.0.nodes[u.node].links.exit == Some(stn) && r.0.nodes[d.node].links.inlet == Some(stn)
              && r.0.deps[stn] == w.deps[stn] + [d.node] && r.0.precs[stn] == w.precs[stn] + [u.node]
    ensures !(u.Part? && HasExit(w.nodes[u.node].kind)) ==> r == (w, Failure(AttributeError("connect_downstream")))
  {
    if !(u.Part? && HasExit(w.nodes[u.node].kind)) then (w, Failure(AttributeError("connect_downstream")))
    else
      var w1 := Downstream(w, u.node, stn);
      if !(d.Part? && HasInlet(w1.nodes[d.node].kind)) then (w1, Failure(AttributeError("connect_upstream")))
      else (Upstream(w1, d.node, stn), Success)
  }

  /** What a `calculate` hook leaves behind: the arena after its writes, and whether it raised. */
  datatype Effect = Effect(nodes: seq<Node>, status: Status)

  /** `b` is `a` after `calculate` hooks ran: the same nodes wired the same way, and every
      parameter dict but the environment's as it was (the hooks write station flows, a
      shaft's power, a nozzle's jet, and the environment's airspeed and Mach number). */
  ghost predicate HookWrites(a: seq<Node>, b: seq<Node>)
  {
    SameWiring(a, b) && forall n :: 0 <= n < |a| && a[n].kind != Environment ==> b[n].params == a[n].params
  }

  /** `Environment.calculate`: the attribute bag gains whichever of airspeed and Mach number
      it lacked. */
  function EnvironmentHook(g: GasModel, nodes: seq<Node>, n: nat): (r: Effect)
    requires Linked(nodes) && n < |nodes| && nodes[n].kind == Environment
    ensures HookWrites(nodes, r.nodes) && Linked(r.nodes)
    ensures var a := Airspeed(g, nodes[n].flow.t, nodes[n].params);
            && (r.status.Success? <==> a.Ok?)
            && (a.Ok? ==> r.nodes == nodes[n := nodes[n].(params := a.value)])
            && (a.Err? ==> r == Effect(nodes, Failure(a.error)))
    ensures r.status.Success? ==>
              "v0" in r.nodes[n].params && "MACH" in r.nodes[n].params
              && r.nodes[n].params["v0"] == r.nodes[n].params["MACH"] * SoundSpeed(g, nodes[n].flow.t)
  {
    match Airspeed(g, nodes[n].flow.t, nodes[n].params)
    case Err(e) => Effect(nodes, Failure(e))
    case Ok(attrs) => Effect(nodes[n := nodes[n].(params := attrs)], Success)
  }

  /** `Intake.calculate`: writes the exit station field by field, so a zero temperature
      ratio leaves the new pressure written. */
  function IntakeHook(g: GasModel, nodes: seq<Node>, n: nat): (r: Effect)
    requires Linked(nodes) && n < |nodes| && nodes[n].kind == Intake
    ensures HookWrites(nodes, r.nodes) && Linked(r.nodes)
    ensures var m := AmbientMach(nodes, n);
            r.status.Success? <==>
              m.Ok? && IntakeExit(g, nodes[nodes[n].links.ambient.value].flow, m.value, nodes[n].params).Ok?
              && nodes[n].links.exit.Some?
    ensures var m := AmbientMach(nodes, n);
            r.status.Success? ==>
              r.nodes == WithFlow(nodes, nodes[n].links.exit.value,
                                  IntakeExit(g, nodes[nodes[n].links.ambient.value].flow, m.value, nodes[n].params).value)
    ensures var m := AmbientMach(nodes, n);
            var written := m.Ok? && "W" in nodes[n].params && g.pP(m.value) != 0.0 && nodes[n].links.exit.Some?;
            && (r.status.Failure? && written ==>
                  var e := nodes[n].links.exit.value;
                  r.nodes == WithFlow(nodes, e, nodes[e].flow.(p := nodes[nodes[n].links.ambient.value].flow.p / g.pP(m.value))))
            && (r.status.Failure? && !written ==> r.nodes == nodes)
  {
    match AmbientMach(nodes, n)
    case Err(e) => Effect(nodes, Failure(e))
    case Ok(mach) =>
      var amb := nodes[n].links.ambient.value;
      if "W" !in nodes[n].params then Effect(nodes, Failure(KeyError("W")))
      else if g.pP(mach) == 0.0 then Effect(nodes, Failure(ZeroDivision))
      else if nodes[n].links.exit.None? then Effect(nodes, Failure(AttributeError("exit")))
      else
        var p := nodes[amb].flow.p / g.pP(mach);
        var e := nodes[n].links.exit.value;
        if g.tT(mach) == 0.0 then Effect(WithFlow(nodes, e, nodes[e].flow.(p := p)), Failure(ZeroDivision))
        else Effect(WithFlow(nodes, e, Flow(p, nodes[amb].flow.t / g.tT(mach), nodes[n].params["W"])), Success)
  }

  /** `Compressor.calculate`: the exit station is written at once. */
  function CompressorHook(g: GasModel, nodes: seq<Node>, n: nat): (r: Effect)
    requires PhysicalGas(g) && Linked(nodes) && n < |nodes| && nodes[n].kind == Compressor
    ensures HookWrites(nodes, r.nodes) && Linked(r.nodes)
    ensures r.status.Success? <==> nodes[n].links.inlet.Some? && "PR" in nodes[n].params && nodes[n].links.exit.Some?
    ensures r.status.Success? ==> r.nodes == WithFlow(nodes, nodes[n].links.exit.value,
              CompressorExit(g, nodes[nodes[n].links.inlet.value].flow, nodes[n].params).value)
    ensures r.status.Failure? ==> r.nodes == nodes
  {
    var l := nodes[n].links;
    if l.inlet.None? then Effect(nodes, Failure(AttributeError("inlet")))
    else
      match CompressorExit(g, nodes[l.inlet.value].flow, nodes[n].params)
      case Err(e) => Effect(nodes, Failure(e))
      case Ok(f) =>
        if l.exit.None? then Effect(nodes, Failure(AttributeError("exit")))
        else Effect(WithFlow(nodes, l.exit.value, f), Success)
  }

  /** `Turbine.calculate`: extracts the power its shaft last computed. */
  function TurbineHook(g: GasModel, nodes: seq<Node>, n: nat): (r: Effect)
    requires PhysicalGas(g) && Linked(nodes) && n < |nodes| && nodes[n].kind == Turbine
    ensures HookWrites(nodes, r.nodes) && Linked(r.nodes)
    ensures var l := nodes[n].links;
            r.status.Success? <==>
              && l.inlet.Some? && l.shaft.Some? && nodes[l.shaft.value].power.Some?
              && TurbineExit(g, nodes[l.inlet.value].flow, nodes[l.shaft.value].power.value).Ok?
              && l.exit.Some?
    ensures var l := nodes[n].links;
            r.status.Success? ==> r.nodes == WithFlow(nodes, l.exit.value,
              TurbineExit(g, nodes[l.inlet.value].flow, nodes[l.shaft.value].power.value).value)
    ensures r.status.Failure? ==> r.nodes == nodes
    ensures var l := nodes[n].links;
            && (l.inlet.None? ==> r.status == Failure(AttributeError("inlet")))
            && (l.inlet.Some? && l.shaft.None? ==> r.status == Failure(AttributeError("shaft")))
            && (l.inlet.Some? && l.shaft.Some? && nodes[l.shaft.value].power.None? ==>
                  r.status == Failure(AttributeError("power")))
  {
    var l := nodes[n].links;
    if l.inlet.None? then Effect(nodes, Failure(AttributeError("inlet")))
    else if l.shaft.None? then Effect(nodes, Failure(AttributeError("shaft")))
    else if nodes[l.shaft.value].power.None? then Effect(nodes, Failure(AttributeError("power")))
    else
      match TurbineExit(g, nodes[l.inlet.value].flow, nodes[l.shaft.value].power.value)
      case Err(e) => Effect(nodes, Failure(e))
      case Ok(f) =>
        if l.exit.None? then Effect(nodes, Failure(AttributeError("exit")))
        else Effect(WithFlow(nodes, l.exit.value, f), Success)
  }

  /** `Combustor.calculate`. */
  function CombustorHook(nodes: seq<Node>, n: nat): (r: Effect)
    requires Linked(nodes) && n < |nodes| && nodes[n].kind == Combustor
    ensures HookWrites(nodes, r.nodes) && Linked(r.nodes)
    ensures r.status.Success? <==>
              nodes[n].links.inlet.Some? && ("deltaT" in nodes[n].params || "TEX" in nodes[n].params)
              && nodes[n].links.exit.Some?
    ensures r.status.Success? ==> r.nodes == WithFlow(nodes, nodes[n].links.exit.value,
              CombustorExit(nodes[nodes[n].links.inlet.value].flow, nodes[n].params).value)
    ensures r.status.Failure? ==> r.nodes == nodes
  {
    var l := nodes[n].links;
    if l.inlet.None? then Effect(nodes, Failure(AttributeError("inlet")))
    else
      match CombustorExit(nodes[l.inlet.value].flow, nodes[n].params)
      case Err(e) => Effect(nodes, Failure(e))
      case Ok(f) =>
        if l.exit.None? then Effect(nodes, Failure(AttributeError("exit")))
        else Effect(WithFlow(nodes, l.exit.value, f), Success)
  }

  /** `Splitter.calculate`: field by field, so a BPR of -1 leaves the core exit's p and t
      written before the division raises, and a missing bypass exit leaves the core exit
      fully written. */
  function SplitterHook(nodes: seq<Node>, n: nat): (r: Effect)
    requires Linked(nodes) && n < |nodes| && nodes[n].kind == Splitter
    ensures HookWrites(nodes, r.nodes) && Linked(r.nodes)
    ensures var l := nodes[n].links;
            r.status.Success? <==>
              && l.inlet.Some? && "BPR" in nodes[n].params && l.exit.Some?
              && nodes[n].params["BPR"] != -1.0 && l.exit1.Some?
    ensures var l := nodes[n].links;
            r.status.Success? ==>
              var sp := SplitFlows(nodes[l.inlet.value].flow, nodes[n].params["BPR"]).value;
              r.nodes == WithFlow(WithFlow(nodes, l.exit.value, sp.0), l.exit1.value, sp.1)
    ensures var l := nodes[n].links;
            l.inlet.Some? && "BPR" in nodes[n].params && l.exit.Some? && nodes[n].params["BPR"] == -1.0 ==>
              var i := nodes[l.inlet.value].flow;
              r.status.Failure? && r.nodes == WithFlow(nodes, l.exit.value, nodes[l.exit.value].flow.(p := i.p, t := i.t))
    ensures var l := nodes[n].links;
            l.inlet.Some? && "BPR" in nodes[n].params && l.exit.Some? && nodes[n].params["BPR"] != -1.0 && l.exit1.None? ==>
              r.status.Failure? &&
              r.nodes == WithFlow(nodes, l.exit.value, SplitFlows(nodes[l.inlet.value].flow, nodes[n].params["BPR"]).value.0)
    ensures var l := nodes[n].links;
            !(l.inlet.Some? && "BPR" in nodes[n].params && l.exit.Some?) ==> r.status.Failure? && r.nodes == nodes
  {
    var l := nodes[n].links;
    if l.inlet.None? then Effect(nodes, Failure(AttributeError("inlet")))
    else if "BPR" !in nodes[n].params then Effect(nodes, Failure(KeyError("BPR")))
    else if l.exit.None? then Effect(nodes, Failure(AttributeError("exit0")))
    else
      var i := nodes[l.inlet.value].flow;
      var e0 := l.exit.value;
      match SplitFlows(i, nodes[n].params["BPR"])
      case Err(e) => Effect(WithFlow(nodes, e0, nodes[e0].flow.(p := i.p, t := i.t)), Failure(e))
      case Ok(sp) =>
        var core := WithFlow(nodes, e0, sp.0);
        if l.exit1.None? then Effect(core, Failure(AttributeError("exit1")))
        else Effect(WithFlow(core, l.exit1.value, sp.1), Success)
  }

  /** `Shaft.calculate` with the shaft's precedents `ps`: the power is the sum of its
      consumers' demands. */
  function ShaftHook(g: GasModel, nodes: seq<Node>, ps: seq<nat>, n: nat): (r: Effect)
    requires Linked(nodes) && n < |nodes| && nodes[n].kind == Shaft
    requires forall k :: 0 <= k < |ps| ==> ps[k] < |nodes|
    ensures HookWrites(nodes, r.nodes) && Linked(r.nodes)
    ensures var c := ConsumerFlows(nodes, ps);
            && (r.status.Success? <==> c.Ok?)
            && (c.Ok? ==> r.nodes == nodes[n := nodes[n].(power := Some(ShaftSum(g, c.value.0, c.value.1)))])
            && (c.Err? ==> r == Effect(nodes, Failure(c.error)))
  {
    match ConsumerFlows(nodes, ps)
    case Err(e) => Effect(nodes, Failure(e))
    case Ok(fs) => Effect(nodes[n := nodes[n].(power := Some(ShaftSum(g, fs.0, fs.1)))], Success)
  }

  /** `Nozzle.calculate`: no station changes; `vj` is stored before the throat area, whose
      division can still raise. */
  function NozzleHook(g: GasModel, nodes: seq<Node>, n: nat): (r: Effect)
    requires PhysicalGas(g) && Linked(nodes) && n < |nodes| && nodes[n].kind == Nozzle
    ensures HookWrites(nodes, r.nodes) && Linked(r.nodes)
    ensures forall k :: 0 <= k < |nodes| && k != n ==> r.nodes[k] == nodes[k]
    ensures var l := nodes[n].links;
            r.status.Success? <==> l.inlet.Some? && l.ambient.Some?
                                   && NozzleJet(g, nodes[l.inlet.value].flow, nodes[l.ambient.value].flow.p).Ok?
    ensures var l := nodes[n].links;
            r.status.Success? ==>
              var j := NozzleJet(g, nodes[l.inlet.value].flow, nodes[l.ambient.value].flow.p).value;
              r.nodes == nodes[n := nodes[n].(vj := Some(j.vj), athroat := Some(j.athroat), throatPs := Some(j.throatPs))]
    ensures var l := nodes[n].links;
            var expands := l.inlet.Some? && l.ambient.Some? && nodes[l.ambient.value].flow.p != 0.0
                           && nodes[l.inlet.value].flow.p / nodes[l.ambient.value].flow.p != 0.0;
            r.status.Failure? ==>
              && r.nodes[n].athroat == nodes[n].athroat && r.nodes[n].throatPs == nodes[n].throatPs
              && (expands ==>
                    var i := nodes[l.inlet.value].flow;
                    r.nodes == nodes[n := nodes[n].(vj := Some(JetSpeed(g, i.t, i.p / nodes[l.ambient.value].flow.p)))])
              && (!expands ==> r.nodes == nodes)
  {
    var l := nodes[n].links;
    if l.inlet.None? then Effect(nodes, Failure(AttributeError("inlet")))
    else if l.ambient.None? then Effect(nodes, Failure(AttributeError("ambient")))
    else
      var i := nodes[l.inlet.value].flow;
      var pamb := nodes[l.ambient.value].flow.p;
      if pamb == 0.0 || i.p / pamb == 0.0 then Effect(nodes, Failure(ZeroDivision))
      else
        var jetted := nodes[n := nodes[n].(vj := Some(JetSpeed(g, i.t, i.p / pamb)))];
        match NozzleJet(g, i, pamb)
        case Err(e) => Effect(jetted, Failure(e))
        case Ok(j) => Effect(jetted[n := jetted[n].(athroat := Some(j.athroat), throatPs := Some(j.throatPs))], Success)
  }

  /** The `calculate` hook of node `n`, dispatched on its class; `precs` are the precedent
      lists, over which a shaft sums its consumers. A hook writes only its own node and the
      stations it feeds, and a station's hook does nothing. */
  function Hook(g: GasModel, nodes: seq<Node>, precs: seq<seq<nat>>, n: nat): (r: Effect)
    requires PhysicalGas(g) && Linked(nodes) && n < |nodes| && |precs| == |nodes| && Graph.Edges(precs, |nodes|)
    ensures |r.nodes| == |nodes| && Linked(r.nodes)
    ensures forall k :: 0 <= k < |nodes| && k != n && Some(k) != nodes[n].links.exit && Some(k) != nodes[n].links.exit1 ==>
              r.nodes[k] == nodes[k]
    ensures nodes[n].kind == Station ==> r == Effect(nodes, Success)
  {
    match nodes[n].kind
    case Station => Effect(nodes, Success)
    case Environment => EnvironmentHook(g, nodes, n)
    case Intake => IntakeHook(g, nodes, n)
    case Compressor => CompressorHook(g, nodes, n)
    case Turbine => TurbineHook(g, nodes, n)
    case Combustor => CombustorHook(nodes, n)
    case Splitter => SplitterHook(nodes, n)
    case Shaft => ShaftHook(g, nodes, precs[n], n)
    case Nozzle => NozzleHook(g, nodes, n)
  }

  /** The `calculate` hooks of `fired`, run in order until one raises: the arena and status
      they leave, and how many ran before the one that raised. */
  function RunHooks(g: GasModel, nodes: seq<Node>, precs: seq<seq<nat>>, fired: seq<nat>): (r: (Effect, nat))
    requires PhysicalGas(g) && Linked(nodes) && |precs| == |nodes| && Graph.Edges(precs, |nodes|)
    requires forall k :: 0 <= k < |fired| ==> fired[k] < |nodes|
    ensures |r.0.nodes| == |nodes| && Linked(r.0.nodes)
    ensures r.0.status.Success? ==> r.1 == |fired|
    ensures r.0.status.Failure? ==> r.1 < |fired|
    decreases |fired|
  {
    if fired == [] then (Effect(nodes, Success), 0)
    else
      var e := Hook(g, nodes, precs, fired[0]);
      if e.status.Failure? then (e, 0)
      else
        var rest := RunHooks(g, e.nodes, precs, fired[1..]);
        (rest.0, rest.1 + 1)
  }

  /** However far they get, the hooks leave the wiring and every parameter dict but the
      environment's as they were. */
  lemma {:induction false} RunHooksWrites(g: GasModel, nodes: seq<Node>, precs: seq<seq<nat>>, fired: seq<nat>)
    requires PhysicalGas(g) && Linked(nodes) && |precs| == |nodes| && Graph.Edges(precs, |nodes|)
    requires forall k :: 0 <= k < |fired| ==> fired[k] < |nodes|
    ensures HookWrites(nodes, RunHooks(g, nodes, precs, fired).0.nodes)
    decreases |fired|
  {
    if fired != [] {
      var e := Hook(g, nodes, precs, fired[0]);
      assert HookWrites(nodes, e.nodes);
      if e.status.Success? {
        RunHooksWrites(g, e.nodes, precs, fired[1..]);
      }
    }
  }

  class Engine {
    const gas: GasModel
    const net: Graph.Network
    /** The node of `self.environment`, created with the engine. */
    const environment: nat

    var nodes: seq<Node>
    var components: map<string, Entry>
    var nozzles: seq<nat>
    var intake: Option<nat>
    var stations: map<string, nat>
    /** `Engine.attributes`, the dict registered as 'ENGINE': THRUST, FUEL_FLOW, SFC. */
    var attributes: map<string, real>
    var thrust: Option<real>

    function Size(): nat
      reads this
    {
      |nodes|
    }

    /** Every registry entry names a node; 'ENGINE' is the attribute dict. */
    ghost predicate Registered()
      reads this
    {
      && (forall id :: id in components && components[id].Part? ==> components[id].node < |nodes|)
      && "ENGINE" in components && components["ENGINE"] == EngineAttributes
      && (forall k :: 0 <= k < |nozzles| ==> nozzles[k] < |nodes|)
      && LinkIn(intake, |nodes|)
      && (forall id :: id in stations ==> stations[id] < |nodes|)
    }

    ghost predicate Valid()
      reads this, net
    {
      && net.Valid() && |nodes| == |net.dirty| && Linked(nodes)
      && environment < |nodes| && nodes[environment].kind == Environment
      && Registered() && PhysicalGas(gas)
    }

    /** Everything but the physics state is as it was. */
    twostate predicate WiringUnchanged()
      reads this
    {
      && SameWiring(old(nodes), nodes) && components == old(components)
      && nozzles == old(nozzles) && intake == old(intake) && stations == old(stations)
    }

    /** What `calculate_thrust` then `calculate_attributes` leave on the current nodes: without
        'v0' or a nozzle term nothing is written; otherwise the thrust is the nozzle sum, and
        the attributes are those of `calculate_attributes` on the old ones with 'THRUST' set. */
    twostate predicate Aggregated(s: Status)
      reads this, net
      requires Valid()
    {
      var t := NozzleTerms(nodes, nozzles);
      var ff := EngineFuelFlow(gas, nodes, components);
      if "v0" in nodes[environment].params && t.Ok? then
        var total := ThrustSum(t.value.0, t.value.1, nodes[environment].params["v0"]);
        thrust == Some(total) && (attributes, s) == AttributesAfter(old(attributes)["THRUST" := total], ff)
      else
        && s == Failure(if "v0" !in nodes[environment].params then KeyError("v0") else t.error)
        && thrust == old(thrust) && attributes == old(attributes)
    }

    /** Only the nodes' physics state may have changed: a `calculate` hook. */
    twostate predicate OnlyPhysics()
      reads this
    {
      WiringUnchanged() && attributes == old(attributes) && thrust == old(thrust)
    }

    /** `Engine.__init__`: the environment with airspeed 'v0' = 0, and 'ENGINE' registered. */
    constructor (g: GasModel)
      requires PhysicalGas(g)
      ensures Valid() && fresh(net)
      ensures environment == 0 && nodes == [Blank(Environment, map["v0" := 0.0])]
      ensures components == map["ENGINE" := EngineAttributes]
      ensures nozzles == [] && intake == None && stations == map[] && attributes == map[] && thrust == None
      ensures net.dirty == [true] && net.dependents == [[]] && net.precedents == [[]] && net.trace == []
    {
      gas := g;
      var nw := new Graph.Network();
      var e := nw.AddNode();
      net := nw;
      environment := e;
      nodes := [Blank(Environment, map["v0" := 0.0])];
      components := map["ENGINE" := EngineAttributes];
      nozzles, intake, stations, attributes, thrust := [], None, map[], map[], None;
    }

    /** `Engine.__getitem__`. */
    function Get(ident: string): (r: Result<Entry>)
      reads this
      ensures r.Ok? <==> ident in components
      ensures r.Ok? ==> r.value == components[ident]
      ensures r.Err? ==> r.error == KeyError(ident)
    {
      if ident in components then Ok(components[ident]) else Err(KeyError(ident))
    }

    /** A fresh node of the given class: `Station()` or a component constructor. */
    method NewNode(kind: Kind, attrs: map<string, real>) returns (n: nat)
      requires Valid() && kind != Environment
      modifies this, net
      ensures Valid() && n == old(Size()) && nodes == old(nodes) + [Blank(kind, attrs)]
      ensures net.dirty == old(net.dirty) + [true]
      ensures net.dependents == old(net.dependents) + [[]] && net.precedents == old(net.precedents) + [[]]
      ensures net.trace == old(net.trace)
      ensures components == old(components) && nozzles == old(nozzles) && intake == old(intake)
      ensures stations == old(stations) && attributes == old(attributes) && thrust == old(thrust)
    {
      n := net.AddNode();
      ghost var size := |nodes| + 1;
      forall k | 0 <= k < |nodes| ensures LinksIn(nodes[k].links, size) {
        assert LinksIn(nodes[k].links, |nodes|);
      }
      nodes := nodes + [Blank(kind, attrs)];
    }

    /** The environment's station fields set directly, as an assembly does for p, t and w. */
    method SetAmbient(f: Flow)
      requires Valid()
      modifies this
      ensures Valid() && WiringUnchanged()
      ensures nodes == WithFlow(old(nodes), environment, f)
      ensures attributes == old(attributes) && thrust == old(thrust)
    {
      nodes := WithFlow(nodes, environment, f);
    }

    /** `InletComponent.connect_upstream`: the inlet station gets the component as a dependent. */
    method ConnectUpstream(c: nat, inlet: nat)
      requires Valid() && c < Size() && inlet < Size() && HasInlet(nodes[c].kind)
      modifies this, net
      ensures Valid()
      ensures net.dependents == old(net.dependents)[inlet := old(net.dependents)[inlet] + [c]]
      ensures net.precedents == old(net.precedents)[c := old(net.precedents)[c] + [inlet]]
      ensures net.dirty == old(net.dirty) && net.trace == old(net.trace)
      ensures nodes == WithLinks(old(nodes), c, old(nodes)[c].links.(inlet := Some(inlet)))
      ensures components == old(components) && nozzles == old(nozzles) && intake == old(intake)
      ensures stations == old(stations) && attributes == old(attributes) && thrust == old(thrust)
    {
      net.Link(inlet, c);
      nodes := WithLinks(nodes, c, nodes[c].links.(inlet := Some(inlet)));
    }

    /** `ExitComponent.connect_downstream`: the exit station becomes a dependent of the component. */
    method ConnectDownstream(c: nat, exit: nat)
      requires Valid() && c < Size() && exit < Size() && HasExit(nodes[c].kind)
      modifies this, net
      ensures Valid()
      ensures net.dependents == old(net.dependents)[c := old(net.dependents)[c] + [exit]]
      ensures net.precedents == old(net.precedents)[exit := old(net.precedents)[exit] + [c]]
      ensures net.dirty == old(net.dirty) && net.trace == old(net.trace)
      ensures nodes == WithLinks(old(nodes), c, old(nodes)[c].links.(exit := Some(exit)))
      ensures components == old(components) && nozzles == old(nozzles) && intake == old(intake)
      ensures stations == old(stations) && attributes == old(attributes) && thrust == old(thrust)
    {
      net.Link(c, exit);
      nodes := WithLinks(nodes, c, nodes[c].links.(exit := Some(exit)));
    }

    /** `FlowComponent.connect_stations`: upstream, then downstream. */
    method ConnectStations(c: nat, inlet: nat, exit: nat)
      requires Valid() && c < Size() && inlet < Size() && exit < Size() && IsFlowComponent(nodes[c].kind)
      modifies this, net
      ensures Valid()
      ensures var d1 := old(net.dependents)[inlet := old(net.dependents)[inlet] + [c]];
              net.dependents == d1[c := d1[c] + [exit]]
      ensures var p1 := old(net.precedents)[c := old(net.precedents)[c] + [inlet]];
              net.precedents == p1[exit := p1[exit] + [c]]
      ensures net.dirty == old(net.dirty) && net.trace == old(net.trace)
      ensures nodes == WithLinks(old(nodes), c, old(nodes)[c].links.(inlet := Some(inlet), exit := Some(exit)))
      ensures components == old(components) && nozzles == old(nozzles) && intake == old(intake)
      ensures stations == old(stations) && attributes == old(attributes) && thrust == old(thrust)
    {
      ConnectUpstream(c, inlet);
      ConnectDownstream(c, exit);
    }

    /** `Splitter.connect_stations`: the splitter depends on its inlet, and both exits are
        appended to its dependents, but neither exit records the splitter as a precedent. */
    method SplitterConnect(s: nat, inlet: nat, exit0: nat, exit1: nat)
      requires Valid() && s < Size() && inlet < Size() && exit0 < Size() && exit1 < Size()
      requires nodes[s].kind == Splitter
      modifies this, net
      ensures Valid()
      ensures var d1 := old(net.dependents)[inlet := old(net.dependents)[inlet] + [s]];
              net.dependents == d1[s := d1[s] + [exit0, exit1]]
      ensures net.precedents == old(net.precedents)[s := old(net.precedents)[s] + [inlet]]
      ensures net.dirty == old(net.dirty) && net.trace == old(net.trace)
      ensures nodes == WithLinks(old(nodes), s, old(nodes)[s].links.(inlet := Some(inlet), exit := Some(exit0), exit1 := Some(exit1)))
      ensures components == old(components) && nozzles == old(nozzles) && intake == old(intake)
      ensures stations == old(stations) && attributes == old(attributes) && thrust == old(thrust)
    {
      net.AddDependent(inlet, s);
      nodes := WithLinks(nodes, s, nodes[s].links.(inlet := Some(inlet), exit := Some(exit0), exit1 := Some(exit1)));
      net.AddPrecedent(s, inlet);
      net.AddDependent(s, exit0);
      net.AddDependent(s, exit1);
      assert net.dependents[s] == old(net.dependents)[inlet := old(net.dependents)[inlet] + [s]][s] + [exit0, exit1];
    }

    /** `Intake.connect_ambient`: the intake depends on the ambient station. */
    method IntakeConnectAmbient(i: nat, ambient: nat)
      requires Valid() && i < Size() && ambient < Size() && nodes[i].kind == Intake
      modifies this, net
      ensures Valid()
      ensures net.dependents == old(net.dependents)[ambient := old(net.dependents)[ambient] + [i]]
      ensures net.precedents == old(net.precedents)[i := old(net.precedents)[i] + [ambient]]
      ensures net.dirty == old(net.dirty) && net.trace == old(net.trace)
      ensures nodes == WithLinks(old(nodes), i, old(nodes)[i].links.(ambient := Some(ambient)))
      ensures components == old(components) && nozzles == old(nozzles) && intake == old(intake)
      ensures stations == old(stations) && attributes == old(attributes) && thrust == old(thrust)
    {
      nodes := WithLinks(nodes, i, nodes[i].links.(ambient := Some(ambient)));
      net.Link(ambient, i);
    }

    /** `Nozzle.connect_ambient`: only a reference for the pressure ratio, no graph edge. */
    method NozzleConnectAmbient(nz: nat, ambient: nat)
      requires Valid() && nz < Size() && ambient < Size() && nodes[nz].kind == Nozzle
      modifies this
      ensures Valid() && unchanged(net)
      ensures nodes == WithLinks(old(nodes), nz, old(nodes)[nz].links.(ambient := Some(ambient)))
      ensures components == old(components) && nozzles == old(nozzles) && intake == old(intake)
      ensures stations == old(stations) && attributes == old(attributes) && thrust == old(thrust)
    {
      nodes := WithLinks(nodes, nz, nodes[nz].links.(ambient := Some(ambient)));
    }

    /** `Shaft.add_turbine`: the turbine depends on the shaft and takes its power from it. */
    method ShaftAddTurbine(s: nat, t: nat)
      requires Valid() && s < Size() && t < Size() && nodes[s].kind == Shaft
      modifies this, net
      ensures Valid()
      ensures net.dependents == old(net.dependents)[s := old(net.dependents)[s] + [t]]
      ensures net.precedents == old(net.precedents)[t := old(net.precedents)[t] + [s]]
      ensures net.dirty == old(net.dirty) && net.trace == old(net.trace)
      ensures var n1 := WithLinks(old(nodes), s, old(nodes)[s].links.(driver := Some(t)));
              nodes == WithLinks(n1, t, n1[t].links.(shaft := Some(s)))
      ensures components == old(components) && nozzles == old(nozzles) && intake == old(intake)
      ensures stations == old(stations) && attributes == old(attributes) && thrust == old(thrust)
    {
      nodes := WithLinks(nodes, s, nodes[s].links.(driver := Some(t)));
      net.Link(s, t);
      nodes := WithLinks(nodes, t, nodes[t].links.(shaft := Some(s)));
    }

    /** `Shaft.add_driven`: the shaft depends on the consumer's power demand. */
    method ShaftAddDriven(s: nat, item: nat)
      requires Valid() && s < Size() && item < Size() && nodes[s].kind == Shaft
      modifies net
      ensures Valid()
      ensures net.dependents == old(net.dependents)[item := old(net.dependents)[item] + [s]]
      ensures net.precedents == old(net.precedents)[s := old(net.precedents)[s] + [item]]
      ensures net.dirty == old(net.dirty) && net.trace == old(net.trace)
    {
      net.Link(item, s);
    }

    /** `Engine.__setitem__`: idents are unique; a nozzle is referred to the environment and
        recorded in order; an intake is recorded and made to depend on the environment, and a
        second intake fails its assertion after it has been registered. */
    method SetItem(ident: string, entry: Entry) returns (s: Status)
      requires Valid() && (entry.Part? ==> entry.node < Size())
      modifies this, net
      ensures Valid() && |nodes| == |old(nodes)| && stations == old(stations)
      ensures attributes == old(attributes) && thrust == old(thrust)
      ensures net.dirty == old(net.dirty) && net.trace == old(net.trace)
      ensures ident in old(components) ==>
                s == Failure(AssertionError("Component idents must be unique")) && unchanged(this) && unchanged(net)
      ensures ident !in old(components) ==> components == old(components)[ident := entry]
      ensures |net.precedents| == |old(net.precedents)|
      ensures ident !in old(components) && entry.Part? ==> Attached(entry.node, s)
      ensures ident !in old(components) && !entry.Part? ==>
                s.Success? && nozzles == old(nozzles) && intake == old(intake) && nodes == old(nodes)
                && net.dependents == old(net.dependents) && net.precedents == old(net.precedents)
    {
      if ident in components {
        return Failure(AssertionError("Component idents must be unique"));
      }
      components := components[ident := entry];
      if entry.Part? {
        s := Attach(entry.node);
      } else {
        s := Success;
      }
    }

    /** What registering node `n` does besides storing it: a nozzle is referred to the
        environment and appended to the nozzles; a first intake is recorded and wired below
        the environment; a second intake fails and changes nothing; any other class changes
        nothing. */
    twostate predicate Attached(n: nat, s: Status)
      reads this, net
      requires n < |old(nodes)| && n < |old(net.precedents)| && environment < |old(net.dependents)|
    {
      var kind := old(nodes)[n].kind;
      var before := Wiring(old(nodes), old(net.dependents), old(net.precedents));
      var after := Wiring(nodes, net.dependents, net.precedents);
      && (kind == Nozzle ==>
            && s.Success? && nozzles == old(nozzles) + [n] && intake == old(intake)
            && after == before.(nodes := WithLinks(old(nodes), n, old(nodes)[n].links.(ambient := Some(environment)))))
      && (kind == Intake && old(intake).Some? ==>
            && s == Failure(AssertionError("Have already set the intake?"))
            && nozzles == old(nozzles) && intake == old(intake) && after == before)
      && (kind == Intake && old(intake).None? ==>
            && s.Success? && nozzles == old(nozzles) && intake == Some(n)
            && after == Wiring(WithLinks(old(nodes), n, old(nodes)[n].links.(ambient := Some(environment))),
                               old(net.dependents)[environment := old(net.dependents)[environment] + [n]],
                               old(net.precedents)[n := old(net.precedents)[n] + [environment]]))
      && (kind != Nozzle && kind != Intake ==>
            s.Success? && nozzles == old(nozzles) && intake == old(intake) && after == before)
    }

    /** The class-dependent half of `Engine.__setitem__` for a Calculable at node `n`. */
    method Attach(n: nat) returns (s: Status)
      requires Valid() && n < Size()
      modifies this, net
      ensures Valid() && |nodes| == |old(nodes)| && |net.precedents| == |old(net.precedents)| && Attached(n, s)
      ensures components == old(components) && stations == old(stations)
      ensures attributes == old(attributes) && thrust == old(thrust)
      ensures net.dirty == old(net.dirty) && net.trace == old(net.trace)
    {
      if nodes[n].kind == Nozzle {
        NozzleConnectAmbient(n, environment);
        nozzles := nozzles + [n];
      }
      if nodes[n].kind == Intake {
        if intake.Some? {
          return Failure(AssertionError("Have already set the intake?"));
        }
        intake := Some(n);
        IntakeConnectAmbient(n, environment);
      }
      s := Success;
    }

    /** `Engine.connect_intake`: the registered entry must have `connect_upstream`, which an
        `Intake` (an exit-only component) does not. */
    method ConnectIntake(ident: string) returns (s: Status)
      requires Valid()
      modifies this, net
      ensures Valid() && components == old(components)
      ensures s.Success? <==> ident in components && components[ident].Part?
                              && HasInlet(old(nodes)[components[ident].node].kind)
      ensures s.Success? ==>
                var c := components[ident].node;
                nodes == WithLinks(old(nodes), c, old(nodes)[c].links.(inlet := Some(environment)))
                && net.precedents == old(net.precedents)[c := old(net.precedents)[c] + [environment]]
      ensures s.Success? ==>
                Wiring(nodes, net.dependents, net.precedents)
                  == Upstream(Wiring(old(nodes), old(net.dependents), old(net.precedents)), components[ident].node, environment)
      ensures s.Failure? ==> unchanged(this) && unchanged(net)
      ensures net.dirty == old(net.dirty) && net.trace == old(net.trace)
      ensures nozzles == old(nozzles) && intake == old(intake) && stations == old(stations)
      ensures attributes == old(attributes) && thrust == old(thrust)
    {
      if ident !in components {
        return Failure(AssertionError("connect_intake needs a registered component"));
      }
      var e := components[ident];
      if !(e.Part? && HasInlet(nodes[e.node].kind)) {
        return Failure(AttributeError("connect_upstream"));
      }
      ConnectUpstream(e.node, environment);
      s := Success;
    }

    /** `Engine.connect_flows`: a new station between the upstream component's exit and the
        downstream component's inlet, registered under its name when it has one. */
    method ConnectFlows(up: string, down: string, name: Option<string>) returns (s: Status, stn: nat)
      requires Valid()
      modifies this, net
      ensures Valid() && components == old(components) && nozzles == old(nozzles) && intake == old(intake)
      ensures up !in old(components) || down !in old(components) ==>
                s.Failure? && s.error.AssertionError? && unchanged(this) && unchanged(net)
      ensures s.Success? <==>
                && up in old(components) && down in old(components)
                && components[up].Part? && HasExit(nodes[components[up].node].kind)
                && components[down].Part? && HasInlet(nodes[components[down].node].kind)
      ensures s.Success? ==>
                && stn == old(Size()) && |nodes| == stn + 1 && nodes[stn].kind == Station
                && nodes[components[up].node].links.exit == Some(stn)
                && nodes[components[down].node].links.inlet == Some(stn)
                && net.dependents[components[up].node] == old(net.dependents)[components[up].node] + [stn]
                && net.precedents[components[down].node] == old(net.precedents)[components[down].node] + [stn]
                && net.dependents[stn] == [components[down].node]
                && net.precedents[stn] == [components[up].node]
                && stations == (if name.Some? then old(stations)[name.value := stn] else old(stations))
      ensures net.trace == old(net.trace) && attributes == old(attributes) && thrust == old(thrust)
      ensures up in old(components) && down in old(components) ==>
                && stn == old(Size()) && net.dirty == old(net.dirty) + [true]
                && stations == (if name.Some? then old(stations)[name.value := stn] else old(stations))
                && (Wiring(nodes, net.dependents, net.precedents), s)
                     == JoinWiring(Wiring(old(nodes) + [Blank(Station, map[])], old(net.dependents) + [[]], old(net.precedents) + [[]]),
                                   old(components)[up], old(components)[down], stn)
    {
      stn := 0;
      if up !in components || down !in components {
        return Failure(AssertionError("connect_flows needs registered components")), stn;
      }
      stn := NewNode(Station, map[]);
      if name.Some? {
        stations := stations[name.value := stn];
      }
      s := Join(components[up], components[down], stn);
    }

    /** The second half of `connect_flows`: the upstream entry must have `connect_downstream`
        and the downstream one `connect_upstream`; the first of them that is missing raises. */
    method Join(u: Entry, d: Entry, stn: nat) returns (s: Status)
      requires Valid() && stn < Size() && (u.Part? ==> u.node < Size()) && (d.Part? ==> d.node < Size())
      requires nodes[stn].kind == Station && net.dependents[stn] == [] && net.precedents[stn] == []
      modifies this, net
      ensures Valid() && components == old(components) && nozzles == old(nozzles) && intake == old(intake)
      ensures stations == old(stations) && |nodes| == |old(nodes)|
      ensures forall n :: 0 <= n < |nodes| ==> nodes[n].kind == old(nodes)[n].kind
      ensures s.Success? <==> u.Part? && HasExit(nodes[u.node].kind) && d.Part? && HasInlet(nodes[d.node].kind)
      ensures s.Success? ==>
                && nodes[u.node].links.exit == Some(stn) && nodes[d.node].links.inlet == Some(stn)
                && net.dependents[u.node] == old(net.dependents)[u.node] + [stn]
                && net.precedents[d.node] == old(net.precedents)[d.node] + [stn]
                && net.dependents[stn] == [d.node] && net.precedents[stn] == [u.node]
      ensures (Wiring(nodes, net.dependents, net.precedents), s)
                == JoinWiring(Wiring(old(nodes), old(net.dependents), old(net.precedents)), u, d, stn)
      ensures net.dirty == old(net.dirty) && net.trace == old(net.trace)
      ensures attributes == old(attributes) && thrust == old(thrust)
    {
      if !(u.Part? && HasExit(nodes[u.node].kind)) {
        return Failure(AttributeError("connect_downstream"));
      }
      ConnectDownstream(u.node, stn);
      if !(d.Part? && HasInlet(nodes[d.node].kind)) {
        return Failure(AttributeError("connect_upstream"));
      }
      ConnectUpstream(d.node, stn);
      s := Success;
    }

    /** `Component.__getitem__`. */
    function GetParam(n: nat, name: string): (r: Result<real>)
      reads this
      requires n < |nodes|
      ensures r.Ok? <==> name in nodes[n].params
      ensures r.Ok? ==> r.value == nodes[n].params[name]
      ensures r.Err? ==> r.error == KeyError(name)
    {
      if name in nodes[n].params then Ok(nodes[n].params[name]) else Err(KeyError(name))
    }

    /** `Component.__setitem__`: an undeclared parameter raises LookupError and changes nothing;
        otherwise the component and all its transitive dependents become dirty, and only that
        parameter changes. */
    method SetParam(n: nat, name: string, value: real, ghost rank: seq<nat>) returns (s: Status)
      requires Valid() && n < Size() && IsComponent(nodes[n].kind) && Graph.Ranked(net.dependents, rank)
      modifies this, net
      ensures Valid() && WiringUnchanged() && attributes == old(attributes) && thrust == old(thrust)
      ensures s.Success? <==> name in old(nodes)[n].params
      ensures s.Failure? ==> s.error == LookupError(name) && unchanged(this) && unchanged(net)
      ensures s.Success? ==> nodes == old(nodes)[n := old(nodes)[n].(params := old(nodes)[n].params[name := value])]
      ensures s.Success? ==> forall i :: 0 <= i < |net.dirty| ==>
                net.dirty[i] == (old(net.dirty)[i] || Graph.Reaches(net.dependents, n, i))
      ensures net.dependents == old(net.dependents) && net.precedents == old(net.precedents)
      ensures net.trace == old(net.trace)
    {
      if name !in nodes[n].params {
        return Failure(LookupError(name));
      }
      net.MakeDirty(n, rank);
      nodes := nodes[n := nodes[n].(params := nodes[n].params[name := value])];
      s := Success;
    }

    /** `Environment.calculate` on the engine's own nodes, leaving what `EnvironmentHook` describes. */
    method CalculateEnvironment(n: nat) returns (s: Status)
      requires Valid() && n < Size() && nodes[n].kind == Environment
      modifies this
      ensures Valid() && OnlyPhysics()
      ensures Effect(nodes, s) == EnvironmentHook(gas, old(nodes), n)
    {
      var r := Airspeed(gas, nodes[n].flow.t, nodes[n].params);
      if r.Err? {
        return Failure(r.error);
      }
      nodes := nodes[n := nodes[n].(params := r.value)];
      s := Success;
    }

    /** `Intake.calculate` on the engine's own nodes, leaving what `IntakeHook` describes. */
    method CalculateIntake(n: nat) returns (s: Status)
      requires Valid() && n < Size() && nodes[n].kind == Intake
      modifies this
      ensures Valid() && OnlyPhysics()
      ensures Effect(nodes, s) == IntakeHook(gas, old(nodes), n)
    {
      var m := AmbientMach(nodes, n);
      if m.Err? {
        return Failure(m.error);
      }
      var amb := nodes[n].links.ambient.value;
      if "W" !in nodes[n].params {
        return Failure(KeyError("W"));
      }
      var w := nodes[n].params["W"];
      if gas.pP(m.value) == 0.0 {
        return Failure(ZeroDivision);
      }
      var p := nodes[amb].flow.p / gas.pP(m.value);
      if nodes[n].links.exit.None? {
        return Failure(AttributeError("exit"));
      }
      var e := nodes[n].links.exit.value;
      if gas.tT(m.value) == 0.0 {
        // the exit pressure is already written when the temperature's division raises
        nodes := WithFlow(nodes, e, nodes[e].flow.(p := p));
        return Failure(ZeroDivision);
      }
      // writing p, then t (from the ambient t, which the p write leaves alone), then w
      nodes := WithFlow(nodes, e, Flow(p, nodes[amb].flow.t / gas.tT(m.value), w));
      s := Success;
    }

    /** `Compressor.calculate` on the engine's own nodes, leaving what `CompressorHook` describes. */
    method CalculateCompressor(n: nat) returns (s: Status)
      requires Valid() && n < Size() && nodes[n].kind == Compressor
      modifies this
      ensures Valid() && OnlyPhysics()
      ensures Effect(nodes, s) == CompressorHook(gas, old(nodes), n)
    {
      if nodes[n].links.inlet.None? {
        return Failure(AttributeError("inlet"));
      }
      var r := CompressorExit(gas, nodes[nodes[n].links.inlet.value].flow, nodes[n].params);
      if r.Err? {
        return Failure(r.error);
      }
      if nodes[n].links.exit.None? {
        return Failure(AttributeError("exit"));
      }
      nodes := WithFlow(nodes, nodes[n].links.exit.value, r.value);
      s := Success;
    }

    /** `Turbine.calculate` on the engine's own nodes, leaving what `TurbineHook` describes. */
    method CalculateTurbine(n: nat) returns (s: Status)
      requires Valid() && n < Size() && nodes[n].kind == Turbine
      modifies this
      ensures Valid() && OnlyPhysics()
      ensures Effect(nodes, s) == TurbineHook(gas, old(nodes), n)
    {
      var l := nodes[n].links;
      if l.inlet.None? {
        return Failure(AttributeError("inlet"));
      }
      if l.shaft.None? {
        return Failure(AttributeError("shaft"));
      }
      if nodes[l.shaft.value].power.None? {
        return Failure(AttributeError("power"));
      }
      var r := TurbineExit(gas, nodes[l.inlet.value].flow, nodes[l.shaft.value].power.value);
      if r.Err? {
        return Failure(r.error);
      }
      if l.exit.None? {
        return Failure(AttributeError("exit"));
      }
      nodes := WithFlow(nodes, l.exit.value, r.value);
      s := Success;
    }

    /** `Combustor.calculate` on the engine's own nodes, leaving what `CombustorHook` describes. */
    method CalculateCombustor(n: nat) returns (s: Status)
      requires Valid() && n < Size() && nodes[n].kind == Combustor
      modifies this
      ensures Valid() && OnlyPhysics()
      ensures Effect(nodes, s) == CombustorHook(old(nodes), n)
    {
      if nodes[n].links.inlet.None? {
        return Failure(AttributeError("inlet"));
      }
      var r := CombustorExit(nodes[nodes[n].links.inlet.value].flow, nodes[n].params);
      if r.Err? {
        return Failure(r.error);
      }
      if nodes[n].links.exit.None? {
        return Failure(AttributeError("exit"));
      }
      nodes := WithFlow(nodes, nodes[n].links.exit.value, r.value);
      s := Success;
    }

    /** `Splitter.calculate` on the engine's own nodes, leaving what `SplitterHook` describes. */
    method CalculateSplitter(n: nat) returns (s: Status)
      requires Valid() && n < Size() && nodes[n].kind == Splitter
      modifies this
      ensures Valid() && OnlyPhysics()
      ensures Effect(nodes, s) == SplitterHook(old(nodes), n)
    {
      var l := nodes[n].links;
      if l.inlet.None? {
        return Failure(AttributeError("inlet"));
      }
      var i := nodes[l.inlet.value].flow;
      if "BPR" !in nodes[n].params {
        return Failure(KeyError("BPR"));
      }
      var bpr := nodes[n].params["BPR"];
      if l.exit.None? {
        return Failure(AttributeError("exit0"));
      }
      var e0 := l.exit.value;
      var split := SplitFlows(i, bpr);
      if split.Err? {
        // p and t of the core exit are already written when w's division raises
        nodes := WithFlow(nodes, e0, nodes[e0].flow.(p := i.p, t := i.t));
        return Failure(split.error);
      }
      // the three field writes to each exit leave it equal to the split flow
      nodes := WithFlow(nodes, e0, split.value.0);
      if l.exit1.None? {
        return Failure(AttributeError("exit1"));
      }
      nodes := WithFlow(nodes, l.exit1.value, split.value.1);
      s := Success;
    }

    /** `Shaft.calculate` on the engine's own nodes, leaving what `ShaftHook` describes. */
    method CalculateShaft(n: nat) returns (s: Status)
      requires Valid() && n < Size() && nodes[n].kind == Shaft
      modifies this
      ensures Valid() && OnlyPhysics()
      ensures Effect(nodes, s) == ShaftHook(gas, old(nodes), net.precedents[n], n)
    {
      var c := ConsumerFlows(nodes, net.precedents[n]);
      if c.Err? {
        return Failure(c.error);
      }
      nodes := nodes[n := nodes[n].(power := Some(ShaftSum(gas, c.value.0, c.value.1)))];
      s := Success;
    }

    /** `Nozzle.calculate` on the engine's own nodes, leaving what `NozzleHook` describes. */
    method CalculateNozzle(n: nat) returns (s: Status)
      requires Valid() && n < Size() && nodes[n].kind == Nozzle
      modifies this
      ensures Valid() && OnlyPhysics()
      ensures Effect(nodes, s) == NozzleHook(gas, old(nodes), n)
    {
      var l := nodes[n].links;
      if l.inlet.None? {
        return Failure(AttributeError("inlet"));
      }
      var i := nodes[l.inlet.value].flow;
      if l.ambient.None? {
        return Failure(AttributeError("ambient"));
      }
      var pamb := nodes[l.ambient.value].flow.p;
      if pamb == 0.0 {
        return Failure(ZeroDivision);
      }
      var npr := i.p / pamb;
      if npr == 0.0 {
        return Failure(ZeroDivision);
      }
      nodes := nodes[n := nodes[n].(vj := Some(JetSpeed(gas, i.t, npr)))];
      var j := NozzleJet(gas, i, pamb);
      if j.Err? {
        return Failure(j.error);
      }
      nodes := nodes[n := nodes[n].(athroat := Some(j.value.athroat), throatPs := Some(j.value.throatPs))];
      s := Success;
    }

    /** The `calculate` hook of node `n`, dispatched on its class, as `Hook` describes it. */
    method CalculateNode(n: nat) returns (s: Status)
      requires Valid() && n < Size()
      modifies this
      ensures Valid() && OnlyPhysics()
      ensures Effect(nodes, s) == Hook(gas, old(nodes), net.precedents, n)
    {
      match nodes[n].kind
      case Station => s := Success;
      case Environment => s := CalculateEnvironment(n);
      case Intake => s := CalculateIntake(n);
      case Compressor => s := CalculateCompressor(n);
      case Turbine => s := CalculateTurbine(n);
      case Combustor => s := CalculateCombustor(n);
      case Splitter => s := CalculateSplitter(n);
      case Shaft => s := CalculateShaft(n);
      case Nozzle => s := CalculateNozzle(n);
    }

    /** The loop of `Engine.calculate_thrust`: `w * (vj - v0)` summed over the nozzles. */
    method NozzleThrust(v0: real) returns (r: Result<real>)
      requires Linked(nodes) && forall k :: 0 <= k < |nozzles| ==> nozzles[k] < |nodes|
      ensures r.Ok? <==> NozzleTerms(nodes, nozzles).Ok?
      ensures r.Ok? ==> r.value == ThrustSum(NozzleTerms(nodes, nozzles).value.0, NozzleTerms(nodes, nozzles).value.1, v0)
      ensures r.Err? ==> NozzleTerms(nodes, nozzles) == Err(r.error)
    {
      var total := 0.0;
      var i := 0;
      ghost var ws: seq<real> := [];
      ghost var vjs: seq<real> := [];
      while i < |nozzles|
        invariant 0 <= i <= |nozzles|
        invariant NozzleTerms(nodes, nozzles[..i]) == Ok((ws, vjs))
        invariant total == ThrustSum(ws, vjs, v0)
      {
        var z := nozzles[i];
        assert nozzles[..i + 1][..i] == nozzles[..i];
        if nodes[z].links.inlet.None? {
          assert NozzleTerms(nodes, nozzles[..i + 1]) == Err(AttributeError("inlet"));
          NozzleTermsPrefix(nodes, nozzles, i + 1);
          return Err(AttributeError("inlet"));
        }
        if nodes[z].vj.None? {
          assert NozzleTerms(nodes, nozzles[..i + 1]) == Err(AttributeError("vj"));
          NozzleTermsPrefix(nodes, nozzles, i + 1);
          return Err(AttributeError("vj"));
        }
        var w := nodes[nodes[z].links.inlet.value].flow.w;
        NozzleTermsStep(nodes, nozzles, i);
        var vj := nodes[z].vj.value;
        ThrustSumStep(ws, vjs, w, vj, v0);
        total := total + w * (vj - v0);
        ws, vjs := ws + [w], vjs + [vj];
        i := i + 1;
      }
      assert nozzles[..i] == nozzles;
      r := Ok(total);
    }

    /** `Engine.calculate_thrust`: the environment's airspeed, then the nozzle sum, stored both
        as `thrust` and as the 'THRUST' attribute. */
    method CalculateThrust() returns (s: Status)
      requires Valid()
      modifies this
      ensures Valid() && WiringUnchanged() && nodes == old(nodes)
      ensures var t := NozzleTerms(nodes, nozzles);
              && (s.Success? <==> "v0" in nodes[environment].params && t.Ok?)
              && (s.Success? ==>
                    var total := ThrustSum(t.value.0, t.value.1, nodes[environment].params["v0"]);
                    thrust == Some(total) && attributes == old(attributes)["THRUST" := total])
              && (s.Failure? ==> thrust == old(thrust) && attributes == old(attributes))
              && (s.Failure? ==> s.error == if "v0" !in nodes[environment].params then KeyError("v0") else t.error)
    {
      if "v0" !in nodes[environment].params {
        return Failure(KeyError("v0"));
      }
      var r := NozzleThrust(nodes[environment].params["v0"]);
      if r.Err? {
        return Failure(r.error);
      }
      thrust := Some(r.value);
      attributes := attributes["THRUST" := r.value];
      s := Success;
    }

    /** `Engine.calculate_attributes`: fuel flow, then SFC = fuel flow / thrust. */
    method CalculateAttributes() returns (s: Status)
      requires Valid()
      modifies this
      ensures Valid() && WiringUnchanged() && nodes == old(nodes) && thrust == old(thrust)
      ensures var ff := EngineFuelFlow(gas, nodes, components);
              && (s.Success? <==> ff.Ok? && "THRUST" in old(attributes) && old(attributes)["THRUST"] != 0.0)
              && (s.Success? ==>
                    && attributes.Keys == old(attributes).Keys + {"FUEL_FLOW", "SFC"}
                    && attributes["FUEL_FLOW"] == ff.value
                    && attributes["THRUST"] == old(attributes)["THRUST"]
                    && SfcRelation(attributes))
              && (ff.Err? ==> attributes == old(attributes))
      ensures (attributes, s) == AttributesAfter(old(attributes), EngineFuelFlow(gas, nodes, components))
    {
      var ff := EngineFuelFlow(gas, nodes, components);
      if ff.Err? {
        return Failure(ff.error);
      }
      attributes := attributes["FUEL_FLOW" := ff.value];
      if "THRUST" !in attributes {
        return Failure(KeyError("THRUST"));
      }
      var sfc := Div(ff.value, attributes["THRUST"]);
      if sfc.Err? {
        return Failure(sfc.error);
      }
      attributes := attributes["SFC" := sfc.value];
      s := Success;
    }

    /** The `calculate` hooks of the fired nodes, in firing order, up to the first that
        raises; `stop` is its position. */
    method RunFired(fired: seq<nat>) returns (s: Status, stop: nat)
      requires Valid() && forall k :: 0 <= k < |fired| ==> fired[k] < |nodes|
      modifies this
      ensures Valid() && OnlyPhysics()
      ensures Effect(nodes, s) == RunHooks(gas, old(nodes), net.precedents, fired).0
      ensures stop == RunHooks(gas, old(nodes), net.precedents, fired).1
      decreases |fired|
    {
      if fired == [] {
        return Success, 0;
      }
      s := CalculateNode(fired[0]);
      if s.Failure? {
        return s, 0;
      }
      s, stop := RunFired(fired[1..]);
      stop := stop + 1;
    }

    /** The `calculate` hooks of the fired nodes, in firing order. When one raises, the update
        stops there and the nodes after it, which the source never reached, are left dirty. */
    method Replay(fired: seq<nat>) returns (s: Status, stop: nat)
      requires Valid() && forall k :: 0 <= k < |fired| ==> fired[k] < |nodes|
      modifies this, net
      ensures Valid() && OnlyPhysics()
      ensures var h := RunHooks(gas, old(nodes), net.precedents, fired);
              Effect(nodes, s) == h.0 && stop == h.1
      ensures net.dependents == old(net.dependents) && net.precedents == old(net.precedents)
      ensures net.trace == old(net.trace) && |net.dirty| == |old(net.dirty)|
      ensures s.Success? ==> net.dirty == old(net.dirty)
      ensures s.Failure? ==> stop < |fired| && forall i :: 0 <= i < |net.dirty| ==>
                net.dirty[i] == (old(net.dirty)[i] || i in fired[stop + 1..])
    {
      s, stop := RunFired(fired);
      if s.Failure? {
        Repend(fired[stop + 1..]);
      }
    }

    /** Marks the given nodes dirty again. */
    method Repend(pending: seq<nat>)
      requires Valid() && forall k :: 0 <= k < |pending| ==> pending[k] < Size()
      modifies net
      ensures Valid() && net.dependents == old(net.dependents) && net.precedents == old(net.precedents)
      ensures net.trace == old(net.trace) && |net.dirty| == |old(net.dirty)|
      ensures forall i :: 0 <= i < |net.dirty| ==> net.dirty[i] == (old(net.dirty)[i] || i in pending)
    {
      var k := 0;
      while k < |pending|
        invariant 0 <= k <= |pending|
        invariant Valid() && net.dependents == old(net.dependents) && net.precedents == old(net.precedents)
        invariant net.trace == old(net.trace) && |net.dirty| == |old(net.dirty)|
        invariant forall i :: 0 <= i < |net.dirty| ==> net.dirty[i] == (old(net.dirty)[i] || i in pending[..k])
      {
        net.dirty := net.dirty[pending[k] := true];
        assert pending[..k + 1] == pending[..k] + [pending[k]];
        k := k + 1;
      }
      assert pending[..k] == pending;
    }

    /** The tail of `Engine.update`: `calculate_thrust`, then `calculate_attributes`. */
    method Aggregate() returns (s: Status)
      requires Valid()
      modifies this
      ensures Valid() && WiringUnchanged() && nodes == old(nodes)
      ensures var t := NozzleTerms(nodes, nozzles);
              var ff := EngineFuelFlow(gas, nodes, components);
              && (s.Success? <==>
                    && "v0" in nodes[environment].params && t.Ok? && ff.Ok?
                    && ThrustSum(t.value.0, t.value.1, nodes[environment].params["v0"]) != 0.0)
              && (s.Success? ==>
                    && thrust == Some(ThrustSum(t.value.0, t.value.1, nodes[environment].params["v0"]))
                    && attributes.Keys == old(attributes).Keys + {"THRUST", "FUEL_FLOW", "SFC"}
                    && attributes["THRUST"] == thrust.value && attributes["FUEL_FLOW"] == ff.value
                    && SfcRelation(attributes))
      ensures Aggregated(s)
    {
      s := CalculateThrust();
      if s.Failure? {
        return;
      }
      s := CalculateAttributes();
    }

    /** The graph half of `Engine.update`: `make_dirty` then `update` on the environment;
        `fired` is the order in which the cascade cleared the nodes. */
    method Cascade(ghost rank: seq<nat>) returns (ok: bool, fired: seq<nat>)
      requires Valid() && Graph.Ranked(net.dependents, rank)
      modifies net
      ensures Valid()
      ensures net.dependents == old(net.dependents) && net.precedents == old(net.precedents)
      ensures var marked := MarkReachable(old(net.dependents), old(net.dirty), environment);
              Graph.Fits(old(net.dependents), old(net.precedents), marked)
              && var f := Graph.Fire(old(net.dependents), old(net.precedents), rank, marked, environment);
              && fired == f.trace && net.trace == old(net.trace) + f.trace
              && net.dirty == f.dirty && ok == f.ok
      ensures forall k :: 0 <= k < |fired| ==> fired[k] < Size()
    {
      ghost var deps, precs := net.dependents, net.precedents;
      net.MakeDirty(environment, rank);
      ghost var marked := net.dirty;
      assert marked == MarkReachable(deps, old(net.dirty), environment);
      var start := |net.trace|;
      ok := net.Update(environment, rank);
      Graph.FireClears(deps, precs, rank, marked, environment);
      fired := net.trace[start..];
    }

    /** `Engine.update`: dirty the environment and everything downstream of it, fire the
        cascade from it, run the fired nodes' `calculate` hooks in firing order, then compute
        the thrust and the attributes. `f` is the cascade and `h` the hooks' run over the nodes
        it fired. */
    method Update(ghost rank: seq<nat>) returns (s: Status, ghost f: Graph.Firing, ghost h: (Effect, nat))
      requires Valid() && Graph.Ranked(net.dependents, rank)
      modifies this, net
      ensures Valid() && WiringUnchanged()
      ensures net.dependents == old(net.dependents) && net.precedents == old(net.precedents)
      ensures var marked := MarkReachable(old(net.dependents), old(net.dirty), environment);
              Graph.Fits(old(net.dependents), old(net.precedents), marked)
              && f == Graph.Fire(old(net.dependents), old(net.precedents), rank, marked, environment)
      ensures net.trace == old(net.trace) + f.trace
      ensures forall k :: 0 <= k < |f.trace| ==> f.trace[k] < |old(nodes)|
      ensures h == RunHooks(gas, old(nodes), net.precedents, f.trace)
      ensures nodes == h.0.nodes && (h.0.status.Failure? ==> s == h.0.status)
      ensures h.0.status.Success? ==> net.dirty == f.dirty
      ensures h.0.status.Failure? ==> forall i :: 0 <= i < |net.dirty| ==>
                net.dirty[i] == (f.dirty[i] || i in f.trace[h.1 + 1..])
      ensures !f.ok ==> s.Failure?
      ensures h.0.status.Success? && !f.ok ==> s == Failure(AssertionError("If a precedent tells us to update we must be dirty"))
      ensures h.0.status.Success? && f.ok ==> Aggregated(s)
      ensures h.0.status.Failure? || !f.ok ==> thrust == old(thrust) && attributes == old(attributes)
      ensures forall k :: 0 <= k < |nodes| && old(nodes)[k].kind != Environment ==> nodes[k].params == old(nodes)[k].params
      ensures var t := NozzleTerms(nodes, nozzles);
              var ff := EngineFuelFlow(gas, nodes, components);
              && (s.Success? <==>
                    && h.0.status.Success? && f.ok
                    && "v0" in nodes[environment].params && t.Ok? && ff.Ok?
                    && ThrustSum(t.value.0, t.value.1, nodes[environment].params["v0"]) != 0.0)
              && (s.Success? ==>
                    && thrust == Some(ThrustSum(t.value.0, t.value.1, nodes[environment].params["v0"]))
                    && attributes.Keys == old(attributes).Keys + {"THRUST", "FUEL_FLOW", "SFC"}
                    && attributes["THRUST"] == thrust.value && attributes["FUEL_FLOW"] == ff.value
                    && SfcRelation(attributes))
    {
      ghost var before := nodes;
      f := Graph.Fire(net.dependents, net.precedents, rank, MarkReachable(net.dependents, net.dirty, environment), environment);
      var ok, fired := Cascade(rank);
      RunHooksWrites(gas, before, net.precedents, fired);
      h := RunHooks(gas, before, net.precedents, fired);
      var c, _ := Replay(fired);
      if c.Failure? {
        s := c;
        return;
      }
      if !ok {
        s := Failure(AssertionError("If a precedent tells us to update we must be dirty"));
        return;
      }
      s := Aggregate();
    }
  }
}
