# KEngine in Dafny

A model of the core of KEngine, a small Python 2 gas-turbine performance library, with proofs
about it. An engine is a network of Calculables: stations that hold the gas state between
components, and components (intake, compressor, combustor, turbine, splitter, shaft, nozzle)
whose `calculate` updates the stations downstream of them. A change of input marks everything
downstream dirty; an update cascade from the environment recalculates the network in
dependency order, spreadsheet style, and the engine then sums the nozzle thrust and the
specific fuel consumption. On top of the engine sit a table of named input and output aliases
(`EngineAssembly`), a Newton solver that moves chosen inputs until chosen outputs meet their
targets, and a linear exchange-rate model.

Files and modules:

- `outcomes.dfy` (`Outcomes`): `Option`, the Python exceptions the core raises as an `Error`
  datatype, `Status` and `Result` with failure propagation.
- `graph.dfy` (`Graph`): the firing protocol of `Calculable`. Nodes live in an arena and are
  named by their index. `Fire`/`FireAll` are the pure meaning of `update`, and the class
  `Network` holds the flags and edge lists that its methods update in place. `calculate` is a
  hook that appends the fired node to a trace.
- `physics.dfy` (`Physics`): the transfer law of each component as a pure function of its
  inlet state and parameters. The `compressible` module, the gas constants and Python's
  fractional power are the fields of a `GasModel` and stay uninterpreted.
- `performance.dfy` (`Performance`): class `Engine`. It holds the registry, the node records,
  the wiring methods, the parameter store of `Component`, every component's `calculate` as
  in-place writes, and `Engine.update` with the thrust and SFC aggregation.
- `engines.dfy` (`Engines`): the alias layer. Path walking and item assignment are defined on
  a value `Snapshot` of the engine, and class `EngineAssembly` is proved against them.
- `solver.dfy` (`Newton`): class `Solver`. It covers the target split, the parity check, the
  finite-difference Jacobian, the matrix layout, the correction step and the iteration loop.
  The engine run and the linear solve are parameters.
- `xrates.dfy` (`ExchangeRates`): `XRates`, a value because nothing changes it after
  construction, specified by the pure `Calculated` and implemented by the loops of `Calculate`.

Python dict iteration order is an explicit sequence of keys wherever the order is observable.
`Engines.Ordered(order, m)` says that the names in `order` are distinct and are exactly the keys
of `m`. The dependents relation has no cycle detection in the source. Every recursive walk over
it takes a ghost `rank` that strictly decreases along every dependent edge, so an acyclic
wiring is a precondition.

## Model

| member | source | states |
|---|---|---|
| Graph.ReachesUnfold | kengine/performance.py:51-58 | a node reaches another through `dependents` exactly when it is that node or one of its dependents reaches it, the recursion `make_dirty` follows |
| Graph.Network.AddNode | kengine/performance.py:41-49 | a new Calculable starts dirty with no dependents and no precedents; nothing else changes |
| Graph.Network.AddDependent | kengine/performance.py:80-81 | appends to the node's dependents only |
| Graph.Network.AddPrecedent | kengine/performance.py:83-84 | appends to the node's precedents only |
| Graph.Network.Link | kengine/performance.py:167-172 | the symmetric pair of appends: `down` joins the dependents of `up` and `up` the precedents of `down`; flags unchanged |
| Graph.Network.MakeDirty | kengine/performance.py:51-58 | afterwards a node is dirty iff it was dirty before or is reachable from the marked node through dependents; edges unchanged |
| Graph.Network.Update | kengine/performance.py:60-78 | the new flags, the calculated nodes in order and the assertion outcome are those of `Fire`; updating a clean node fails the assertion and changes nothing |
| Graph.Fire | kengine/performance.py:60-78 | the cascade from a node keeps one flag per node; what it clears, fires and asserts is stated by the lemmas below |
| Graph.FireAll | kengine/performance.py:76-78 | the loop over the dependents keeps one flag per node |
| Graph.FireClears | kengine/performance.py:60-78 | an update cascade only ever clears flags, and it calculates exactly the nodes it clears, each exactly once |
| Graph.FireAllClears | kengine/performance.py:76-78 | the same for the loop over the dependents |
| Graph.FireRespectsPrecedents | kengine/performance.py:70-78 | a node is calculated only when every precedent is clean, either before the cascade or calculated earlier in it |
| Graph.FireAllRespectsPrecedents | kengine/performance.py:76-78 | the same for the loop over the dependents |
| Graph.FireReachesOnly | kengine/performance.py:60-78 | a cascade started at a node calculates only that node and its transitive dependents |
| Graph.FireAllReachesOnly | kengine/performance.py:76-78 | the loop over dependents calculates only nodes reachable from one of them |
| Graph.FireAllStopsAtFailure | kengine/performance.py:76-78 | once an update in the loop fails its assertion, the later dependents are never updated |
| Graph.ShortcutWiringFails | kengine/performance.py:68 | wiring A to [B, C] plus B to C, B first: C fires through B, then A updates the clean C and the assertion fails after all three were calculated |
| Physics.Airspeed | kengine/performance.py:120-131 | 'v0' wins and sets 'MACH', else 'MACH' sets 'v0', else the missing-airspeed exception; on success `v0 == MACH * a` and every other attribute is kept |
| Physics.CompressorExit | kengine/performance.py:302-311 | exit pressure is inlet pressure times 'PR', temperature scales by PR to the power 1 - 1/gamma, mass flow passes; a missing 'PR' raises KeyError |
| Physics.ShaftPowerSign | kengine/performance.py:313-323 | the compressor asks for positive power iff it heats the flow, and for none iff it leaves the temperature unchanged |
| Physics.TurbineExit | kengine/performance.py:343-352 | the turbine takes exactly the shaft power out of the flow, `cp * w * (t0 - t1) == power`, and the pressure follows the temperature ratio; zero flow or zero temperature divides by zero |
| Physics.ShaftSumAppend | kengine/performance.py:281-282 | the shaft power is additive over its consumers |
| Physics.ShaftSum | kengine/performance.py:281-282 | consumers whose temperature does not rise ask the shaft for no power at all |
| Physics.ShaftBalance | kengine/performance.py:343-352 | with the shaft power the consumers' demand, the enthalpy the turbine removes equals the enthalpy the compressors add |
| Physics.CombustorExit | kengine/performance.py:373-384 | 'deltaT' takes precedence and gives `exit.t - inlet.t == deltaT`, else `exit.t == TEX`, else KeyError; pressure and mass flow pass unchanged |
| Physics.FuelFlow | kengine/performance.py:386-389 | fuel flow times 'FHV' is the heat `w * cp * (t1 - t0)`; a missing 'FHV' raises KeyError, a zero one divides by zero |
| Physics.CombustorFuel | kengine/performance.py:386-389 | a combustor set by 'deltaT' burns fuel whose heat is `w * cp * deltaT` |
| Physics.SplitFlows | kengine/performance.py:240-251 | both exits copy inlet p and t, the exit flows add up to the inlet flow and stand in the bypass ratio; BPR = -1 divides by zero |
| Physics.IntakeExit | kengine/performance.py:216-221 | total conditions from ambient static ones through the recovery ratios; mass flow is 'W'; a missing 'W' raises KeyError |
| Physics.NozzleJet | kengine/performance.py:407-423 | the jet speed from the pressure ratio to ambient, the choked throat area and throat static pressure; a zero divisor raises |
| Performance.ThrustSum | kengine/performance.py:463-470 | nozzles whose jet leaves at flight speed give zero net thrust |
| Performance.ThrustSumAppend | kengine/performance.py:466-467 | the thrust of two groups of nozzles is the sum of their thrusts |
| Performance.AmbientMach | kengine/performance.py:216-217 | the intake reads 'MACH' from the environment it is connected to, and raises when it is missing |
| Performance.ConsumerFlows | kengine/performance.py:281-282 | the shaft's precedents must all be connected compressors, else AttributeError('inlet') or ('exit') for the first side missing; their inlet and exit flows in precedent order |
| Performance.NozzleTerms | kengine/performance.py:466-467 | the k-th terms are the k-th nozzle's inlet mass flow and jet speed; raises iff some nozzle lacks an inlet or a calculated jet |
| Performance.NozzleTermsStep | kengine/performance.py:466-467 | one more connected, calculated nozzle appends its inlet mass flow and jet speed to the terms |
| Performance.NozzleTermsPrefix | kengine/performance.py:466-467 | when the first nozzles already raise, the whole list raises with the same error |
| Performance.ThrustSumStep | kengine/performance.py:466-467 | one more nozzle adds its term `w * (vj - v0)` to the thrust |
| Performance.EngineFuelFlow | kengine/performance.py:473 | KeyError('COMBUSTOR') without that entry, AttributeError('fuel_flow') when it is not a combustor, AttributeError('inlet') or ('exit') for a missing station; a connected combustor's fuel flow is `FuelFlow` of its inlet and exit, and only then is the result Ok |
| Performance.AttributesAfter | kengine/performance.py:472-477 | 'FUEL_FLOW' is written before 'THRUST' is read, so it stays when that raises; succeeds iff the fuel flow is there and 'THRUST' is present and nonzero, raising KeyError or ZeroDivisionError otherwise; on success exactly 'FUEL_FLOW' and 'SFC' are added with `SFC * THRUST == FUEL_FLOW`; every other attribute keeps its value |
| Performance.Downstream | kengine/performance.py:180-185 | the component refers to the exit, the exit joins the component's dependents and the component the exit's precedents; no other edge list and no node's class changes |
| Performance.Upstream | kengine/performance.py:167-172 | the component refers to the inlet, joins the inlet's dependents and takes the inlet as precedent; no other edge list and no node's class changes |
| Performance.JoinWiring | kengine/performance.py:484-493 | succeeds iff the upstream entry is a component with an exit and the downstream one a component with an inlet, and then both refer to the station, which sits between them in the graph; an upstream entry without `connect_downstream` raises AttributeError before anything is wired |
| Performance.EnvironmentHook | kengine/performance.py:120-131 | the environment's attributes become those of `Airspeed`, after which `v0 == MACH * a`; when it raises nothing changes; the wiring and every other parameter dict are kept |
| Performance.IntakeHook | kengine/performance.py:216-221 | succeeds iff the ambient 'MACH', 'W', the exit and the recovery ratios are there, and then writes `IntakeExit` to the exit station; a zero temperature ratio raises with the new pressure already written; any other failure changes nothing |
| Performance.CompressorHook | kengine/performance.py:302-311 | succeeds iff the inlet, 'PR' and the exit are there, and then writes `CompressorExit` to the exit station; a failure changes nothing |
| Performance.TurbineHook | kengine/performance.py:343-352 | AttributeError('inlet'), ('shaft') or ('power') for the first of these missing; succeeds iff the inlet, the shaft's power, a nonzero inlet flow and temperature and the exit are there, and then writes `TurbineExit` of that power to the exit station; a failure changes nothing |
| Performance.CombustorHook | kengine/performance.py:373-384 | succeeds iff the inlet, 'deltaT' or 'TEX' and the exit are there, and then writes `CombustorExit` to the exit station; a failure changes nothing |
| Performance.SplitterHook | kengine/performance.py:240-251 | succeeds iff the inlet, 'BPR' other than -1 and both exits are there, and then writes both `SplitFlows` exits; BPR = -1 raises with the core exit's p and t written, a missing bypass exit raises with the core exit written |
| Performance.ShaftHook | kengine/performance.py:281-282 | succeeds iff every precedent is a connected compressor, and then the shaft's power is `ShaftSum` of their flows; a failure changes nothing |
| Performance.NozzleHook | kengine/performance.py:407-423 | succeeds iff the inlet, the ambient reference and `NozzleJet` do, and then the nozzle alone takes the jet speed, throat area and throat pressure; when only the throat division raises, the new jet speed is already written |
| Performance.Hook | kengine/performance.py:86-88 | the `calculate` of the node's class; it changes at most the node and its exits, and a station's changes nothing |
| Performance.RunHooks | kengine/performance.py:73-78 | the hooks of the fired nodes in firing order: all of them run on success, and a failure names how many ran before it |
| Performance.RunHooksWrites | kengine/performance.py:73-78 | however far they get, the hooks keep the wiring and every parameter dict but the environment's |
| Performance.Engine.constructor | kengine/performance.py:432-440 | a new engine holds only the environment with 'v0' = 0 and the pre-registered 'ENGINE' attribute dict |
| Performance.Engine.Get | kengine/performance.py:454-455 | lookup in the registry, KeyError when the ident is absent |
| Performance.Engine.NewNode | kengine/performance.py:96-101 | a fresh Calculable of the given class, dirty, unwired, station fields zero; nothing else changes |
| Performance.Engine.SetAmbient | kengine/engines.py:196 | sets only the environment's p, t and w |
| Performance.Engine.ConnectUpstream | kengine/performance.py:167-172 | the component joins the inlet's dependents and the inlet its precedents, and the component refers to its inlet |
| Performance.Engine.ConnectDownstream | kengine/performance.py:180-185 | the exit joins the component's dependents and the component the exit's precedents, and the component refers to its exit |
| Performance.Engine.ConnectStations | kengine/performance.py:194-196 | upstream then downstream, both edge pairs in that order |
| Performance.Engine.SplitterConnect | kengine/performance.py:230-238 | the splitter depends on its inlet, both exits join its dependents, neither exit gets the splitter as precedent |
| Performance.Engine.IntakeConnectAmbient | kengine/performance.py:211-214 | the intake depends on the ambient station and refers to it |
| Performance.Engine.NozzleConnectAmbient | kengine/performance.py:402-405 | only the reference is set; the graph is unchanged |
| Performance.Engine.ShaftAddTurbine | kengine/performance.py:269-274 | the turbine joins the shaft's dependents, the shaft the turbine's precedents, and each refers to the other |
| Performance.Engine.ShaftAddDriven | kengine/performance.py:276-279 | the shaft joins the consumer's dependents and the consumer the shaft's precedents |
| Performance.Engine.SetItem | kengine/performance.py:442-452 | a taken ident fails its assertion and changes nothing; otherwise the entry is registered, a nozzle is appended to `nozzles` and referred to the environment, an intake is recorded and made to depend on the environment, and a second intake fails after registration |
| Performance.Engine.Attach | kengine/performance.py:445-452 | the class-dependent half of registration, with the whole new wiring: a nozzle is appended and refers to the environment; a first intake is recorded, refers to the environment and joins its dependents; a second intake fails its assertion and changes nothing; any other class changes nothing |
| Performance.Engine.ConnectIntake | kengine/performance.py:480-482 | succeeds iff the ident names a component with `connect_upstream`, and the wiring then becomes `Upstream` below the environment; an intake has none, so it fails and changes nothing; flags, trace, registry lists, attributes and thrust are unchanged |
| Performance.Engine.ConnectFlows | kengine/performance.py:484-493 | unknown idents fail the assertion and change nothing; otherwise one new dirty station is appended and the wiring becomes `JoinWiring` of the grown wiring, registered under its name if it has one; trace, attributes and thrust are unchanged |
| Performance.Engine.Join | kengine/performance.py:492-493 | the wiring becomes exactly `JoinWiring` of the old wiring, on failure as well; flags, trace, attributes and thrust are unchanged |
| Performance.Engine.GetParam | kengine/performance.py:148-149 | the stored parameter, KeyError when absent |
| Performance.Engine.SetParam | kengine/performance.py:151-155 | an undeclared name raises LookupError and changes nothing; otherwise only that parameter changes and exactly the component and its transitive dependents become dirty |
| Performance.Engine.CalculateEnvironment | kengine/performance.py:120-131 | the nodes and status become exactly those of `EnvironmentHook` on the old nodes; nothing but the nodes changes |
| Performance.Engine.CalculateIntake | kengine/performance.py:216-221 | the nodes and status become exactly those of `IntakeHook` on the old nodes; nothing but the nodes changes |
| Performance.Engine.CalculateCompressor | kengine/performance.py:302-311 | the nodes and status become exactly those of `CompressorHook` on the old nodes; nothing but the nodes changes |
| Performance.Engine.CalculateTurbine | kengine/performance.py:343-352 | the nodes and status become exactly those of `TurbineHook` on the old nodes; nothing but the nodes changes |
| Performance.Engine.CalculateCombustor | kengine/performance.py:373-384 | the nodes and status become exactly those of `CombustorHook` on the old nodes; nothing but the nodes changes |
| Performance.Engine.CalculateSplitter | kengine/performance.py:240-251 | the nodes and status become exactly those of `SplitterHook` on the old nodes; nothing but the nodes changes |
| Performance.Engine.CalculateShaft | kengine/performance.py:281-282 | the nodes and status become exactly those of `ShaftHook` on the old nodes; nothing but the nodes changes |
| Performance.Engine.CalculateNozzle | kengine/performance.py:407-423 | the nodes and status become exactly those of `NozzleHook` on the old nodes; nothing but the nodes changes |
| Performance.Engine.CalculateNode | kengine/performance.py:86-88 | the nodes and status become exactly those of `Hook` on the old nodes; nothing but the nodes changes |
| Performance.Engine.NozzleThrust | kengine/performance.py:466-467 | the loop's sum is `ThrustSum` of the nozzles' terms, and it raises iff the terms do, with their error |
| Performance.Engine.CalculateThrust | kengine/performance.py:463-470 | thrust and the 'THRUST' attribute both become the nozzle sum at the environment's 'v0'; on failure neither changes, and the error is KeyError('v0') or the nozzle terms' error |
| Performance.Engine.CalculateAttributes | kengine/performance.py:472-477 | the attributes and status are exactly `AttributesAfter` of the old attributes and `EngineFuelFlow`, on success and on each failure; thrust and nodes are kept |
| Performance.Engine.Replay | kengine/performance.py:73-78 | the nodes and status become those of `RunHooks` over the fired nodes; when one raises, the nodes after it stay dirty |
| Performance.Engine.RunFired | kengine/performance.py:73-78 | the fired nodes' `calculate` in order, stopping at the first that raises: the nodes, status and count of `RunHooks` |
| Performance.Engine.Cascade | kengine/performance.py:457-459 | `make_dirty` then `update` on the environment: the flags and the firing order are those of `Fire` on the marked flags |
| Performance.Engine.Aggregate | kengine/performance.py:460-477 | succeeds iff 'v0', the nozzle terms and the combustor's fuel flow are there and the thrust is nonzero; then thrust and 'THRUST' are `ThrustSum` at 'v0', 'FUEL_FLOW' is `EngineFuelFlow` and `SFC * THRUST == FUEL_FLOW`, and exactly those three attributes are added; `Aggregated`: without 'v0' or the nozzle terms nothing changes and the error is KeyError('v0') or the terms' error, otherwise the thrust is written and the attributes are `AttributesAfter` of the old ones with 'THRUST' set, also when the fuel flow or SFC raises |
| Performance.Engine.Update | kengine/performance.py:457-461 | the cascade is `Fire` on the flags `make_dirty` marks, and the nodes become `RunHooks` of the old nodes over the nodes it fired, with its error when a hook raises; the new flags are the cascade's, plus the fired nodes after a raising hook; only the environment's parameters change; a hook's error is returned as is, and a fired node that was not dirty gives the cascade's AssertionError; in both cases thrust and attributes are kept, otherwise they are `Aggregated`; success iff the hooks, the assertion and the aggregation all succeed, and then thrust is `ThrustSum` at 'v0', 'FUEL_FLOW' is `EngineFuelFlow` and the SFC relation holds |
| Engines.Index | kengine/engines.py:38-39 | `item[key]` on the engine succeeds iff the ident is registered; indexing a number raises TypeError |
| Engines.Walk | kengine/engines.py:35-40 | a path walked from something reachable stays inside the engine, and a non-empty path ends at an entry |
| Engines.WalkDepth | kengine/engines.py:35-40 | a path that resolves from the engine has at most two keys: an ident, then a key of that component or of the attribute dict |
| Engines.WalkAppend | kengine/engines.py:38-39 | one more key indexes whatever the shorter path reached |
| Engines.Locate | kengine/engines.py:47-49 | `path[-1]` and the item `path[:-1]` leads to; an empty path raises IndexError |
| Engines.Assign | kengine/engines.py:53 | after `item[key] = value`, indexing `item[key]` gives `value`; the engine accepts only a new ident, a component only a declared parameter, the attribute dict any key |
| Engines.AssignFrame | kengine/engines.py:46-53 | an assignment changes no path walk that does not read the entry it writes |
| Engines.Resolve | kengine/engines.py:35-40 | an unknown alias raises KeyError; a resolved path has at most two keys |
| Engines.Apply | kengine/engines.py:46-53 | an unknown alias raises KeyError and an empty path IndexError |
| Engines.SetThenGet | kengine/engines.py:35-53 | after `set_input_alias(a, v)` succeeds, `get_input_alias(a)` is `v` |
| Engines.SetKeepsOthers | kengine/engines.py:46-53 | every other alias whose path does not read the written entry resolves as before |
| Engines.ApplyAll | kengine/engines.py:17-19 | when every entry is applied, every entry names an alias |
| Engines.ApplyAllStops | kengine/engines.py:17-19 | the entries after the first failing one are never applied |
| Engines.DirtiedByStops | kengine/engines.py:17-19 | the entries after the first failing one mark no node dirty |
| Engines.LastInputReadsBack | kengine/engines.py:17-19 | after `set_inputs`, the alias of its last entry reads that entry's value |
| Engines.Dict | kengine/engines.py:88 | `dict(pairs)` holds every named key, and a pair not overridden later keeps its value |
| Engines.DictOfDistinct | kengine/engines.py:88 | with distinct names, `dict(pairs)` keeps every pair |
| Engines.EngineAssembly.constructor | kengine/engines.py:4-8 | an engine with two empty alias tables |
| Engines.EngineAssembly.AddInputAlias | kengine/engines.py:26-27 | stores path and limits under the name, replacing an earlier entry; the limits read back exactly |
| Engines.EngineAssembly.AddOutputAlias | kengine/engines.py:29-30 | stores the path under the name, replacing an earlier entry; the alias then resolves by that path |
| Engines.EngineAssembly.GetInputLimits | kengine/engines.py:42-44 | the limits of the alias, KeyError for an unknown one |
| Engines.EngineAssembly.GetInputAlias | kengine/engines.py:35-40 | KeyError for an unknown alias, the engine itself for an empty path |
| Engines.EngineAssembly.GetOutputAlias | kengine/engines.py:58-63 | KeyError for an unknown alias, the engine itself for an empty path |
| Engines.EngineAssembly.GetInputInfo | kengine/engines.py:10-15 | one `(name, min, max)` per input alias in iteration order, with that alias's limits, and no other names |
| Engines.EngineAssembly.Collect | kengine/engines.py:23-24 | the comprehension of `get_inputs` over a list of names: exactly those names with their values, or the error of the first name that raises |
| Engines.EngineAssembly.GetInputs | kengine/engines.py:21-24 | exactly the input aliases, each with its value; raises iff some alias does, with the error of the first that raises in iteration order |
| Engines.EngineAssembly.GetOutputs | kengine/engines.py:65-77 | one `(name, value)` pair per output alias in iteration order; the first alias that does not resolve raises its error |
| Engines.EngineAssembly.SetInputAlias | kengine/engines.py:46-53 | the engine's state becomes `Apply`'s, or is unchanged when it raises; exactly the nodes reachable from the written component are newly dirty |
| Engines.EngineAssembly.SetInputs | kengine/engines.py:17-19 | the engine's state becomes `ApplyAll`'s; when an entry raises, the state is that of the entries before it and the error is that entry's; the new dirty flags are `InputsDirty`: a node is dirty iff it was, or a write reached before the first failure lands on a component parameter from which the node is reachable (`DirtiedBy`) |
| Engines.EngineAssembly.Calculate | kengine/engines.py:80-88 | inputs applied before the update, and an input error returned as is, with the entries before the failing one applied; Ok exactly when the inputs apply, the update succeeds and every output alias resolves; once the inputs apply, the cascade `f` is `Fire` from the environment on the flags `make_dirty` marks after `InputsDirty`, the nodes are `RunHooks` of the nodes `ApplyAll` left over the nodes `f` fires, the update `u` succeeds iff the hooks, the cascade's assertion, 'v0', the nozzle terms, the fuel flow and a nonzero thrust all succeed, and an update error is the result's; on Ok thrust is `ThrustSum` at 'v0', the attributes are `AttributesAfter` of `ApplyAll`'s with 'THRUST' set, and the result holds exactly the output aliases with their values |
| Engines.EngineAssembly.UpdateOutputs | kengine/engines.py:86-88 | `u` is the update's outcome: the cascade and the hooks as in `Performance.Engine.Update`, a hook's error or the cascade's AssertionError returned as is, otherwise `Aggregated`; success iff the hooks, the assertion, 'v0', the nozzle terms, the fuel flow and a nonzero thrust all succeed, and then thrust, 'FUEL_FLOW' and the SFC relation hold; an update error is the result's; after a successful update the result is Ok iff every output alias resolves, otherwise it is the first output alias's error in output order |
| Engines.EngineAssembly.OutputDict | kengine/engines.py:88 | exactly the output aliases with their values; raises iff some alias does, with the error of the first that raises in iteration order |
| Newton.ConvergenceIsStrict | kengine/solver.py:86-97 | errors have converged iff every one lies strictly between -1e-6 and 1e-6; one of magnitude 1e-6 or more is not converged; no errors at all are |
| Newton.Errors | kengine/solver.py:70 | the errors over the names given; when they are computed, every name has one |
| Newton.ErrorsMeaning | kengine/solver.py:70 | the errors hold exactly the names, each target less result, and raise KeyError with the first name that has no result |
| Newton.ErrorsAsWritten | kengine/solver.py:70 | the errors over every target, as written |
| Newton.DirectTargetRaises | kengine/solver.py:70 | a target that is an input alias has no result, so the errors as written raise KeyError |
| Newton.Perturbed | kengine/solver.py:140-141 | the copy differs from the current values only in the perturbed variable, raised by its perturbation |
| Newton.GradientRow | kengine/solver.py:149-157 | when the row is computed, every target has an entry |
| Newton.GradientRowMeaning | kengine/solver.py:149-157 | a row holds exactly the target names, each `(output - default) / h`; it raises iff an output or default is missing or the step is zero |
| Newton.GradientRowStops | kengine/solver.py:149-157 | the targets after the first failing one are never looked at |
| Newton.Matrix | kengine/solver.py:106 | entry `[i][j]` is `gradients[xs[j]][zs[i]]`: rows are targets, columns are variables |
| Newton.ErrorVector | kengine/solver.py:109 | entry `i` is the error of target `zs[i]` |
| Newton.Corrections | kengine/solver.py:120 | the `j`-th variable gets the `j`-th entry of the solution |
| Newton.Step | kengine/solver.py:103-120 | a computed step corrects exactly the variables |
| Newton.StepMeaning | kengine/solver.py:103-120 | no variables raise IndexError, a singular system LinAlgError, otherwise each variable's correction is its entry of the solution |
| Newton.NewtonStep | kengine/solver.py:103-120 | with an exact linear solve, the corrections cancel every target's error to first order |
| Newton.SelectMembers | kengine/solver.py:42-46 | a target is kept for the solver iff it is not an input alias, and written directly iff it is |
| Newton.RestrictMembers | kengine/solver.py:42-46 | the kept targets keep their values |
| Newton.WriteAll | kengine/solver.py:42-46 | the writes of the input-alias targets in target order, stopping at the first that raises: the engine inputs it leaves and its status |
| Newton.WriteAllMeaning | kengine/solver.py:42-46 | when no write raises, the engine holds every input-alias target on top of what it held before |
| Newton.WriteAllStep | kengine/solver.py:42-46 | one more target adds its own write, if it is an input alias and nothing raised before |
| Newton.WriteAllStops | kengine/solver.py:42-46 | once a write raises, the later targets are never written |
| Newton.SplitGoals | kengine/solver.py:42-46 | the loop makes exactly the writes of `WriteAll`; when none raises, the solver targets are the other targets in target order with their values |
| Newton.Start | kengine/solver.py:55 | the start vector has one entry per variable |
| Newton.Advance | kengine/solver.py:79 | adding the corrections keeps the variables' key set |
| Newton.Solver.constructor | kengine/solver.py:5-17 | the solver wraps an engine and the settings of its variables |
| Newton.Solver.Row | kengine/solver.py:138-159 | the gradient row of a variable holds every solver target |
| Newton.Solver.RowsMeaning | kengine/solver.py:137-159 | the gradients hold exactly the variables, each with its own row; they raise iff some row does |
| Newton.Solver.RowsStop | kengine/solver.py:137-159 | the variables after the first failing row are never run |
| Newton.Solver.Gradients | kengine/solver.py:124-161 | the Jacobian has a row per variable in variable order, each holding every target |
| Newton.Solver.GenerateJacobian | kengine/solver.py:124-161 | the loops compute `Gradients` |
| Newton.Solver.RowOf | kengine/solver.py:146-157 | the inner loop computes `GradientRow` over the targets |
| Newton.Solver.Rows | kengine/solver.py:137-159 | computed gradients have one row per variable and no other, each holding every solver target |
| Newton.Solver.NextIteration | kengine/solver.py:99-122 | the Jacobian's error or the Newton step; the corrections are keyed by the variables |
| Newton.Solver.Partition | kengine/solver.py:42-48 | the engine inputs and status are those of `WriteAll`; on success the other targets become `self.targets` in target order, and on failure the solver's targets are unchanged |
| Newton.Solver.Round | kengine/solver.py:65-81 | one pass of the loop computes the errors over the solver's own targets (`Errors` over `self.targets`, not over every target as line 70 does); a pass that ends the loop has converged errors, and a pass that goes on keeps the variables |
| Newton.Solver.Trajectory | kengine/solver.py:56-83 | the loop returns only converged values over the variables, and raises the iteration-limit error with no run left |
| Newton.Solver.Pass | kengine/solver.py:59-81 | one pass returns only converged values over the variables |
| Newton.Solver.RoundOf | kengine/solver.py:65-81 | the loop body computes `Round` |
| Newton.Solver.PassOf | kengine/solver.py:59-82 | what one pass tells of the loop's outcome: its error, its converged values, or the outcome from the corrected values |
| Newton.Solver.Iterate | kengine/solver.py:56-83 | the loop returns what `Trajectory` says: converged values or the first error |
| Newton.Solver.Solve | kengine/solver.py:26-83 | the writes of `WriteAll`, returning the first write error; then the parity assertion, then the loop from the start values with 101 runs allowed, whose errors are over the solver's own targets |
| ExchangeRates.Create | kengine/xcrates.py:5-13 | the constructor succeeds iff the header names exactly the reference inputs |
| ExchangeRates.Calculated | kengine/xcrates.py:15-17 | inputs whose names differ from the reference inputs fail the assertion |
| ExchangeRates.OutputsMeaning | kengine/xcrates.py:19-27 | the outputs hold exactly the listed names, each its output; they raise iff some output does |
| ExchangeRates.CalculatedMeaning | kengine/xcrates.py:15-28 | the result holds exactly the reference outputs' names, each `oval0 + sum of rate * (input - input0)` |
| ExchangeRates.Shift | kengine/xcrates.py:22-26 | the reference inputs contribute nothing |
| ExchangeRates.Output | kengine/xcrates.py:20-27 | succeeds iff there is no header input or the output has a row of rates as long as the header; a missing row raises KeyError with the output's name; at the reference inputs the output is its reference value |
| ExchangeRates.Outputs | kengine/xcrates.py:19-27 | computed outputs hold exactly the listed names |
| ExchangeRates.AtOrigin | kengine/xcrates.py:20-27 | at the reference inputs, `calculate` returns the reference outputs |
| ExchangeRates.ShiftBump | kengine/xcrates.py:26 | raising one header input by `d` adds its rate times `d` to the weighted sum |
| ExchangeRates.SingleInput | kengine/xcrates.py:20-27 | with distinct header names, raising input `i` by `d` moves every output `o` by `xrates[o][i] * d` |
| ExchangeRates.OutputsStop | kengine/xcrates.py:19-27 | once an output raises, the result is that error |
| ExchangeRates.Accumulate | kengine/xcrates.py:21-26 | the inner loop computes `Output`: KeyError for an output without rates, IndexError for a short row |
| ExchangeRates.Calculate | kengine/xcrates.py:15-28 | the loops compute `Calculated` |

## Left out

- Printing and the `__main__` blocks, `example1` and `example3` are not modelled: they only report.
- The `compressible` module, the gas constants and Python's fractional power and square root are uninterpreted fields of `Physics.GasModel`. The ValueError Python 2 raises for a negative base to a fractional power is therefore not modelled.
- `Propeller` is not modelled: its `calculate` does nothing and nothing wires it.
- `Engine.fuel_entry` is not modelled: it is never read.
- The shared mutable default `attributes={}` of `Environment` and `Component` is not modelled. Every node owns its parameters.
- The `__getattr__` delegation of `Environment` and `Solver` is not modelled as such. `Performance.AmbientMach` and `Performance.Engine.CalculateThrust` read the environment's attributes directly.
- `_Solver` in engines.py, and `TestFunction`, `test1` and `test2` in solver.py, are not modelled: the first is dead code that references undefined names, and the rest are tests.
- The TurboFan and TurboJet constructors are not modelled: they are fixed wirings of the operations above.
- Python floats are Dafny reals. Rounding, overflow to infinity and NaN are not modelled. `SFC * THRUST == FUEL_FLOW` in `Performance.SfcRelation` and `r.value * y == x` in `Outcomes.Div` hold exactly only over the reals. A NaN error, which compares false and so never converges in `isconverged`, cannot arise in the model.
- Dict iteration order is an explicit key sequence. Python 2's hash order is not modelled.
- Cycles in the dependents relation are excluded by a ghost rank precondition. The source would recurse without end on one.
- Graph.Network.Update and Performance.Engine.Replay: the `calculate` hook records the fired node. The physics is replayed over the trace after the cascade, not during it. This gives the same final state, because `calculate` never reads a dirty flag and `update` never reads the physics state.
- Performance.Engine.CalculateIntake and Performance.Engine.CalculateSplitter: the field-by-field writes are collapsed into one write of the final station on success. On failure they are one write of the fields already written.
- Newton: `engine.calculate` is the parameter `evaluate(direct, values)`, where `direct` is what the solver wrote to the input aliases. `tensorsolve` is the parameter `linsolve`, and `None` stands for its LinAlgError. Newton convergence itself is not claimed.
- Newton.Solver.write: whether writing a value to an input alias raises is the parameter `write`. It is not tied to `Engines.Apply` on the engine's own state.
- Newton.Solver: `self.targets` is `map[]` until `solve` runs. In the source the attribute does not exist before then.
- Newton.Restrict is total: a name missing from the goals is skipped, which never happens for the names `solve` passes.
- Engines.EngineAssembly.Calculate does not restate thrust and attributes after the update raises. `Engines.EngineAssembly.UpdateOutputs` states them through `Aggregated`, and `Performance.Engine.Update` states them for a hook or assertion failure.
- Engines.LastInputReadsBack states the read-back only for the last entry of `set_inputs`. An earlier entry can be overwritten by a later one on the same path.
- `XCTypes` is not modelled: nothing reads its constants.
- `get_test_xrates` is not modelled: it is a test fixture.

## Findings

| source | as written | input that shows it | evidently intended | confidence | as-written member | corrected member |
|---|---|---|---|---|---|---|
| kengine/solver.py:70 | the errors are computed over every target, including the targets written straight to an input alias | a TurboJet solve for `{'RIT': 1600.0, 'THRUST': 10000.0}`, with 'RIT' an input alias: the results are keyed by output alias only, so `results['RIT']` raises KeyError on the first iteration | errors over the solver's own targets, the ones `self.targets` holds | not executed | Newton.DirectTargetRaises | Newton.Solver.Round |
