/** The transfer laws of the components of kengine/performance.py, as pure functions of the
    inlet conditions and the component parameters. The engine applies them in place.

    Everything is over exact reals. The constants of the `compressible` module (gamma, R, cp),
    its recovery functions and Python's fractional power are carried by a `GasModel`, whose
    function fields stay uninterpreted: no property below depends on what they compute. */
module Physics {
  import opened Outcomes

  /** The gas conditions held by a Station: total pressure, total temperature, mass flow. */
  datatype Flow = Flow(p: real, t: real, w: real)

  /** The `compressible` module and Python's `x ** y` for a fractional `y`. */
  datatype GasModel = GasModel(
    gamma: real,
    R: real,
    cp: real,
    pow: (real, real) -> real,   // x ** y
    pP: real -> real,            // compressible.p_P(M): static-to-total pressure ratio
    tT: real -> real,            // compressible.t_T(M): static-to-total temperature ratio
    qChoke: real)                // compressible.q_choke()

  /** Constants of a real gas: the exponents (gamma - 1) / gamma and gamma / (gamma - 1)
      never divide by zero. */
  predicate PhysicalGas(g: GasModel)
  {
    g.gamma > 1.0 && g.R > 0.0 && g.cp > 0.0
  }

  /** Speed of sound `(gamma * R * t) ** 0.5`. */
  function SoundSpeed(g: GasModel, t: real): real
  {
    g.pow(g.gamma * g.R * t, 0.5)
  }

  /** `Environment.calculate`: an airspeed 'v0' wins and yields 'MACH'; otherwise 'MACH'
      yields 'v0'; with neither the source raises. Either way `v0 == MACH * a` afterwards. */
  function Airspeed(g: GasModel, t: real, attrs: map<string, real>): (r: Result<map<string, real>>)
    ensures r.Ok? <==> ("v0" in attrs && SoundSpeed(g, t) != 0.0) || ("v0" !in attrs && "MACH" in attrs)
    ensures r.Err? && "v0" !in attrs ==> r.error == MissingAirspeed
    ensures r.Ok? ==> "v0" in r.value && "MACH" in r.value
    ensures r.Ok? ==> r.value["v0"] == r.value["MACH"] * SoundSpeed(g, t)
    ensures r.Ok? ==> r.value.Keys == attrs.Keys + {"v0", "MACH"}
    ensures r.Ok? && "v0" in attrs ==> r.value["v0"] == attrs["v0"]
    ensures r.Ok? && "v0" !in attrs ==> r.value["MACH"] == attrs["MACH"]
    ensures r.Ok? ==> forall k :: k in attrs && k != "v0" && k != "MACH" ==> r.value[k] == attrs[k]
  {
    var a := SoundSpeed(g, t);
    if "v0" in attrs then
      if a == 0.0 then Err(ZeroDivision) else Ok(attrs["MACH" := attrs["v0"] / a])
    else if "MACH" in attrs then
      Ok(attrs["v0" := attrs["MACH"] * a])
    else
      Err(MissingAirspeed)
  }

  /** `Compressor.calculate`: pressure multiplied by 'PR', temperature by PR ** (1 - 1/gamma),
      mass flow unchanged. */
  function CompressorExit(g: GasModel, inlet: Flow, attrs: map<string, real>): (r: Result<Flow>)
    requires PhysicalGas(g)
    ensures r.Ok? <==> "PR" in attrs
    ensures r.Err? ==> r.error == KeyError("PR")
    ensures r.Ok? ==> r.value.w == inlet.w && r.value.p == inlet.p * attrs["PR"]
    ensures r.Ok? ==> r.value.t == inlet.t * g.pow(attrs["PR"], 1.0 - 1.0 / g.gamma)
  {
    if "PR" !in attrs then Err(KeyError("PR"))
    else
      var pr := attrs["PR"];
      Ok(Flow(inlet.p * pr, inlet.t * g.pow(pr, 1.0 - 1.0 / g.gamma), inlet.w))
  }

  /** `Compressor.shaft_power`: the power the compressor asks of its shaft. */
  function ShaftPower(g: GasModel, inlet: Flow, exit: Flow): real
  {
    g.cp * inlet.w * (exit.t - inlet.t)
  }

  /** A compressor that heats a positive flow asks for positive power, one that leaves the
      temperature unchanged asks for none. */
  lemma ShaftPowerSign(g: GasModel, inlet: Flow, exit: Flow)
    requires PhysicalGas(g) && inlet.w > 0.0
    ensures ShaftPower(g, inlet, exit) > 0.0 <==> exit.t > inlet.t
    ensures ShaftPower(g, inlet, exit) == 0.0 <==> exit.t == inlet.t
  {
    var c := g.cp * inlet.w;
    assert c > 0.0;
    assert ShaftPower(g, inlet, exit) == c * (exit.t - inlet.t);
    if exit.t > inlet.t {
      assert c * (exit.t - inlet.t) > 0.0;
    } else if exit.t < inlet.t {
      assert c * (inlet.t - exit.t) > 0.0;
    }
  }

  /** `Turbine.calculate`: extract the shaft's `power` from the flow; the exit pressure follows
      the temperature ratio. Raises on a zero mass flow or a zero inlet temperature. */
  function TurbineExit(g: GasModel, inlet: Flow, power: real): (r: Result<Flow>)
    requires PhysicalGas(g)
    ensures r.Ok? <==> inlet.w != 0.0 && inlet.t != 0.0
    ensures r.Err? ==> r.error == ZeroDivision
    ensures r.Ok? ==> r.value.w == inlet.w
    ensures r.Ok? ==> g.cp * inlet.w * (inlet.t - r.value.t) == power
    ensures r.Ok? ==> r.value.p == inlet.p * g.pow(r.value.t / inlet.t, g.gamma / (g.gamma - 1.0))
  {
    if g.cp * inlet.w == 0.0 then Err(ZeroDivision)
    else
      var t1 := inlet.t - power / (g.cp * inlet.w);
      if inlet.t == 0.0 then Err(ZeroDivision)
      else Ok(Flow(inlet.p * g.pow(t1 / inlet.t, g.gamma / (g.gamma - 1.0)), t1, inlet.w))
  }

  /** The turbine delivers exactly what its shaft demands: with the shaft's power the sum of
      the compressors' demands, the enthalpy the turbine takes out of its flow equals the
      enthalpy the compressors put into theirs. */
  lemma {:induction false} ShaftBalance(g: GasModel, inlets: seq<Flow>, exits: seq<Flow>, turbineIn: Flow)
    requires PhysicalGas(g) && |inlets| == |exits|
    requires turbineIn.w != 0.0 && turbineIn.t != 0.0
    ensures var out := TurbineExit(g, turbineIn, ShaftSum(g, inlets, exits));
            out.Ok? && ShaftPower(g, turbineIn, out.value) == -ShaftSum(g, inlets, exits)
  {
    var out := TurbineExit(g, turbineIn, ShaftSum(g, inlets, exits));
    assert g.cp * turbineIn.w * (turbineIn.t - out.value.t) == ShaftSum(g, inlets, exits);
    assert ShaftPower(g, turbineIn, out.value) == g.cp * turbineIn.w * (out.value.t - turbineIn.t);
  }

  /** `Shaft.calculate`: the sum of `shaft_power()` over the consumers, in order. Consumers
      whose temperature does not rise ask for no power at all. */
  function ShaftSum(g: GasModel, inlets: seq<Flow>, exits: seq<Flow>): (r: real)
    requires |inlets| == |exits|
    ensures (forall k :: 0 <= k < |inlets| ==> exits[k].t == inlets[k].t) ==> r == 0.0
  {
    if inlets == [] then 0.0
    else ShaftSum(g, inlets[..|inlets| - 1], exits[..|exits| - 1]) + ShaftPower(g, inlets[|inlets| - 1], exits[|exits| - 1])
  }

  /** The shaft's total is additive: consumers added later add exactly their own demand. */
  lemma {:induction false} ShaftSumAppend(g: GasModel, i1: seq<Flow>, e1: seq<Flow>, i2: seq<Flow>, e2: seq<Flow>)
    requires |i1| == |e1| && |i2| == |e2|
    ensures ShaftSum(g, i1 + i2, e1 + e2) == ShaftSum(g, i1, e1) + ShaftSum(g, i2, e2)
    decreases |i2|
  {
    if i2 != [] {
      var n := |i2| - 1;
      assert (i1 + i2)[..|i1 + i2| - 1] == i1 + i2[..n];
      assert (e1 + e2)[..|e1 + e2| - 1] == e1 + e2[..n];
      ShaftSumAppend(g, i1, e1, i2[..n], e2[..n]);
    } else {
      assert i1 + i2 == i1 && e1 + e2 == e1;
    }
  }

  /** `Combustor.calculate`: 'deltaT' takes precedence over a fixed exit temperature 'TEX';
      pressure and mass flow pass through. */
  function CombustorExit(inlet: Flow, attrs: map<string, real>): (r: Result<Flow>)
    ensures r.Ok? <==> "deltaT" in attrs || "TEX" in attrs
    ensures r.Err? ==> r.error == KeyError("TEX")
    ensures r.Ok? ==> r.value.p == inlet.p && r.value.w == inlet.w
    ensures "deltaT" in attrs ==> r.Ok? && r.value.t - inlet.t == attrs["deltaT"]
    ensures "deltaT" !in attrs && "TEX" in attrs ==> r.Ok? && r.value.t == attrs["TEX"]
  {
    if "deltaT" in attrs then Ok(Flow(inlet.p, inlet.t + attrs["deltaT"], inlet.w))
    else if "TEX" in attrs then Ok(Flow(inlet.p, attrs["TEX"], inlet.w))
    else Err(KeyError("TEX"))
  }

  /** `Combustor.fuel_flow`: the heat added divided by the fuel heating value 'FHV'. */
  function FuelFlow(g: GasModel, inlet: Flow, exit: Flow, attrs: map<string, real>): (r: Result<real>)
    ensures r.Ok? <==> "FHV" in attrs && attrs["FHV"] != 0.0
    ensures r.Err? && "FHV" !in attrs ==> r.error == KeyError("FHV")
    ensures r.Err? && "FHV" in attrs ==> r.error == ZeroDivision
    ensures r.Ok? ==> r.value * attrs["FHV"] == inlet.w * g.cp * (exit.t - inlet.t)
  {
    if "FHV" !in attrs then Err(KeyError("FHV"))
    else Div(inlet.w * g.cp * (exit.t - inlet.t), attrs["FHV"])
  }

  /** Fuel burnt by a combustor set by a temperature rise: heating value times fuel flow is
      the heat `w * cp * deltaT` the combustor adds. */
  lemma CombustorFuel(g: GasModel, inlet: Flow, attrs: map<string, real>)
    requires "deltaT" in attrs && "FHV" in attrs && attrs["FHV"] != 0.0
    ensures CombustorExit(inlet, attrs).Ok?
    ensures var ff := FuelFlow(g, inlet, CombustorExit(inlet, attrs).value, attrs);
            ff.Ok? && ff.value * attrs["FHV"] == inlet.w * g.cp * attrs["deltaT"]
  {
    var exit := CombustorExit(inlet, attrs).value;
    assert exit.t - inlet.t == attrs["deltaT"];
  }

  /** `Splitter.calculate`: the core exit gets inlet / (BPR + 1), the bypass exit
      inlet * BPR / (BPR + 1); both copy the inlet pressure and temperature.
      A BPR of -1 divides by zero. */
  function SplitFlows(inlet: Flow, bpr: real): (r: Result<(Flow, Flow)>)
    ensures r.Ok? <==> bpr != -1.0
    ensures r.Err? ==> r.error == ZeroDivision
    ensures r.Ok? ==> r.value.0.p == inlet.p && r.value.0.t == inlet.t
    ensures r.Ok? ==> r.value.1.p == inlet.p && r.value.1.t == inlet.t
    ensures r.Ok? ==> r.value.0.w + r.value.1.w == inlet.w
    ensures r.Ok? ==> r.value.1.w == bpr * r.value.0.w
  {
    if bpr + 1.0 == 0.0 then Err(ZeroDivision)
    else
      var (core, bypass) := Shares(inlet.w, bpr);
      Ok((Flow(inlet.p, inlet.t, core), Flow(inlet.p, inlet.t, bypass)))
  }

  /** The core and bypass mass flows of a split. */
  function Shares(w: real, bpr: real): (r: (real, real))
    requires bpr + 1.0 != 0.0
    ensures r.0 + r.1 == w && r.1 == bpr * r.0
  {
    var core := w / (bpr + 1.0);
    var bypass := w * bpr / (bpr + 1.0);
    SplitShares(w, bpr, core, bypass);
    (core, bypass)
  }

  /** The two shares of a split add up to the whole and stand in the bypass ratio. */
  lemma SplitShares(w: real, bpr: real, core: real, bypass: real)
    requires bpr + 1.0 != 0.0
    requires core == w / (bpr + 1.0) && bypass == w * bpr / (bpr + 1.0)
    ensures core + bypass == w && bypass == bpr * core
  {
    var d := bpr + 1.0;
    assert core * d == w;
    assert bypass * d == w * bpr;
    assert (bpr * core) * d == bpr * w by {
      assert (bpr * core) * d == bpr * (core * d);
    }
    Cancel(bypass, bpr * core, d);
    assert (core + bypass) * d == w * d by {
      assert (core + bypass) * d == core * d + bypass * d;
      assert w + w * bpr == w * d;
    }
    Cancel(core + bypass, w, d);
  }

  /** Cancelling a non-zero factor. */
  lemma Cancel(x: real, y: real, d: real)
    requires d != 0.0 && x * d == y * d
    ensures x == y
  {
    assert x == x * d / d;
    assert y == y * d / d;
  }

  /** `Intake.calculate`: total conditions from the ambient static ones and the flight Mach
      number, mass flow from the parameter 'W'. */
  function IntakeExit(g: GasModel, ambient: Flow, mach: real, attrs: map<string, real>): (r: Result<Flow>)
    ensures r.Ok? <==> "W" in attrs && g.pP(mach) != 0.0 && g.tT(mach) != 0.0
    ensures r.Err? && "W" !in attrs ==> r.error == KeyError("W")
    ensures r.Ok? ==> r.value.w == attrs["W"]
    ensures r.Ok? ==> r.value.p * g.pP(mach) == ambient.p && r.value.t * g.tT(mach) == ambient.t
  {
    if "W" !in attrs then Err(KeyError("W"))
    else if g.pP(mach) == 0.0 || g.tT(mach) == 0.0 then Err(ZeroDivision)
    else Ok(Flow(ambient.p / g.pP(mach), ambient.t / g.tT(mach), attrs["W"]))
  }

  /** What `Nozzle.calculate` stores: jet velocity, choked throat area, throat static pressure. */
  datatype Jet = Jet(vj: real, athroat: real, throatPs: real)

  /** Isentropic expansion of total temperature `t` through the pressure ratio `npr`, with
      efficiency 1: sqrt(2 cp t (1 - (1 / npr) ** ((gamma - 1) / gamma))). */
  function JetSpeed(g: GasModel, t: real, npr: real): real
    requires PhysicalGas(g) && npr != 0.0
  {
    g.pow(2.0 * g.cp * t * 1.0 * (1.0 - g.pow(1.0 / npr, (g.gamma - 1.0) / g.gamma)), 0.5)
  }

  /** `Nozzle.calculate`, with efficiency 1: the pressure ratio NPR = p / pamb expands to the
      jet velocity sqrt(2 cp T (1 - (1 / NPR) ** ((gamma - 1) / gamma))). */
  function NozzleJet(g: GasModel, inlet: Flow, pamb: real): (r: Result<Jet>)
    requires PhysicalGas(g)
    ensures r.Ok? <==> pamb != 0.0 && inlet.p != 0.0 && g.qChoke != 0.0
    ensures r.Err? ==> r.error == ZeroDivision
    ensures r.Ok? ==> r.value.vj == JetSpeed(g, inlet.t, inlet.p / pamb)
    ensures r.Ok? ==> r.value.athroat * (inlet.p * g.qChoke) == inlet.w * g.pow(inlet.t, 0.5)
    ensures r.Ok? ==> r.value.throatPs == inlet.p * g.pP(1.0)
  {
    if pamb == 0.0 then Err(ZeroDivision)
    else
      var npr := inlet.p / pamb;
      if npr == 0.0 then Err(ZeroDivision)
      else
        var vj := JetSpeed(g, inlet.t, npr);
        if inlet.p * g.qChoke == 0.0 then Err(ZeroDivision)
        else Ok(Jet(vj, inlet.w * g.pow(inlet.t, 0.5) / (inlet.p * g.qChoke), inlet.p * g.pP(1.0)))
  }
}
