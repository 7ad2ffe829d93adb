# A verified model of the rocket propulsion assembly

This project models the core of `rocket_system.py`, a composable model of a
liquid-propellant rocket engine, in Dafny, and proves properties of that model.

- **The constraint system** (`ConstraintSystem`) is a pool of declared quantity
  names, equations and known values. `add_variable` declares a name and stores
  its value when one is given. `solve_system` substitutes the knowns, stops early
  when nothing is left unknown, and otherwise merges the backend's first solution.
- **The components** (tank, pump, chamber, nozzle) each register a guarded set of
  quantities with the pool. The chamber also computes exit velocity, thrust and
  specific impulse directly.
- **The assembly** (`PropulsionSystem`) keeps an insertion-ordered dictionary of
  named components. `_setup` re-registers all of them, in order, on the same pool,
  and `add_component` inserts a component and rebuilds. The assembly also
  answers thrust, specific impulse, total mass and thrust-to-weight queries, and
  runs an eight-check validation battery.

Module layout:

- `values.dfy` (`Values`): optional floats, Python truthiness, `dict.get`, substring search.
- `symbolic.dfy` (`Symbolic`): the part of the symbolic-algebra library the pool relies on (free symbols, substitution).
- `constraints.dfy` (`Constraints`): the pool as a value (`Pool`, `Declare`, `Solve`) and the class `ConstraintSystem` that is proved against it.
- `components.dfy` (`Components`): the component datatype, `Fuel.R`, `Pump.power`, each `add_constraints` as a function (`Contribute`) and as a method on a live `ConstraintSystem`.
- `assembly.dfy` (`Assembly`): `_setup` as a function (`SetupPass`), the dictionary (`Put`/`Find`), total mass, the validation battery (`Validation`) and the class `PropulsionSystem`.

Each state-changing method is tied to a function of the old state. Examples:
`ConstraintSystem.AddVariable` yields `Declare(old state, ...)`, and
`PropulsionSystem.Setup` yields `SetupPass(components, old state)`. The lemmas
state what the source promises about those functions.

Reading the code closely brought out three behaviours:

- **Last writer wins.** `_setup` never clears the pool, and several components may
  write the same name. The value left under a name is whatever the last writer in
  dictionary order stored (`SetupLastWriterWins`).
- **The chamber makes the rebuild non-idempotent.** The chamber reads `gamma`,
  `molecular_mass` and `exit_pressure` at the moment it registers, so a nozzle
  placed after it only reaches it on the next rebuild
  (`RebuildFeedsNozzleExitPressureToChamber`). So whenever the nozzle's exit
  pressure changes the velocity, rebuilding a second time gives a different pool
  (`RebuildIsNotIdempotent`). Without a chamber, a rebuild is idempotent
  (`SetupIdempotentWithoutChamber`).
- **`validate_constraints` reads through an alias.** Its `vals` is the pool's own
  map. Thrust and specific impulse are read after the first solve. The
  thrust-to-weight ratio performs two more solves. The later reads (chamber
  pressure, mass flow, pump and tank pressure) see the map after all three solves.
  `ValidateConstraints` states exactly this.

## Model

| member | source | states |
|---|---|---|
| `Values.OrZeroIsTruthyValue` | rocket_system.py:294-296 | `x or 0` is nonzero exactly for a truthy value, and is that value then |
| `Values.ContainsAt` | rocket_system.py:293-295 | the substring test `sub in s` holds exactly when `sub` starts at some position of `s` |
| `Symbolic.SymbolsOfMember` | rocket_system.py:193 | a symbol is free in an equation list exactly when some equation mentions it |
| `Symbolic.SubstRemovesKnowns` | rocket_system.py:190 | substitution removes exactly the substituted symbols from a term's free symbols |
| `Symbolic.SubstAllRemovesKnowns` | rocket_system.py:190-193 | the same for a list of equations |
| `Constraints.DeclareEffect` | rocket_system.py:175-180 | after `add_variable(n, v)`, `n` is declared and nothing else; values change only at `n`, which holds `v` unless `v` is None |
| `Constraints.DeclareKeepsKeysDeclared` | rocket_system.py:175-180 | declaring keeps every known value declared and every equation closed |
| `Constraints.UnknownsAreFreeSymbols` | rocket_system.py:189-193 | the unknowns are the equations' free symbols minus the declared knowns |
| `Constraints.SolveWithoutEquations` | rocket_system.py:193-195 | with no equations, solving returns the pool unchanged |
| `Constraints.SolveFullyDetermined` | rocket_system.py:193-195 | when every symbol is a declared known, nothing is unknown and solving is the identity |
| `Constraints.SolveWithoutSolution` | rocket_system.py:198-199 | when the backend finds no solution, solving is the identity |
| `Constraints.SolveKeepsKnowns` | rocket_system.py:198-201 | if the backend answers only unknowns, solving declares nothing, adds no equation, loses no known, and changes no declared known |
| `Constraints.SolveKeepsKeysDeclared` | rocket_system.py:198-201 | solving keeps every known value declared, given a closed pool and a backend that answers only unknowns |
| `Constraints.ConstraintSystem.constructor` | rocket_system.py:170-173 | a new system is empty and uses the given backend |
| `Constraints.ConstraintSystem.AddVariable` | rocket_system.py:175-180 | the new state is `Declare` of the old state; values stay only under declared names |
| `Constraints.ConstraintSystem.AddConstraint` | rocket_system.py:182-183 | the new state has the equation appended; values stay only under declared names |
| `Constraints.ConstraintSystem.SolveSystem` | rocket_system.py:185-205 | the new state is `Solve` of the old state, and the returned map is the pool's own map; for a closed pool and a backend that answers only unknowns, values stay only under declared names |
| `Components.Fuel.GasConstant` | rocket_system.py:40-44 | R is defined exactly for a truthy molecular mass, and R times that mass is 8314.5 |
| `Components.Component.Power` | rocket_system.py:92-98 | power is defined exactly when gain, flow, density and efficiency are all truthy; power times efficiency times density equals gain times flow |
| `Components.Component.AddConstraints` | rocket_system.py:75-166 | a component's `add_constraints` leaves the pool at `Contribute` of the old pool |
| `Components.Component.DeclareChamberQuantities` | rocket_system.py:119-130 | the chamber's seven registrations leave the pool at `ChamberDeclarations` of the old pool |
| `Components.Component.AddChamberConstraints` | rocket_system.py:118-153 | registrations followed by the direct writes leave the pool at `Contribute` of the old pool |
| `Components.ChamberDeclarationsEffect` | rocket_system.py:119-130 | the registrations declare exactly `Declares()`, add no equation, and store exactly the chamber's own pressure, temperature, throat area and flow |
| `Components.PerformanceEffect` | rocket_system.py:148-153 | the direct step writes only the three performance keys: thrust = flow × Ve and Isp × G0 = Ve |
| `Components.ChamberContributionIsStatic` | rocket_system.py:118-153 | apart from the three performance keys, the chamber's contribution does not depend on the pool |
| `Components.ContributeStaysInOwnKeys` | rocket_system.py:75-166 | a contribution adds no equation, declares only its own keys, and leaves every other value untouched |
| `Components.StaticWriteIsOwnKey` | rocket_system.py:75-166 | whatever a component writes without reading the pool is one of its own keys |
| `Components.ContributeIsStatic` | rocket_system.py:75-166 | except for the chamber's performance keys, a contribution declares `Declares()` and stores exactly its static writes |
| `Components.TankContribution` | rocket_system.py:75-77 | a tank writes only `tank_pressure`, only when its pressure is truthy |
| `Components.PumpContribution` | rocket_system.py:86-90 | a pump writes only its pressure gain and its flow, each guarded by truthiness |
| `Components.NozzleContribution` | rocket_system.py:162-166 | a nozzle writes only its exit pressure and expansion ratio, each guarded by truthiness |
| `Components.ChamberPerformance` | rocket_system.py:133-153 | a ready chamber declares the three performance keys and stores thrust and Isp; Ve comes from the pool's gamma, molecular mass and exit pressure before the call, or from the defaults 1.2, 18 and 101325 |
| `Components.ChamberReadsPoolBefore` | rocket_system.py:135-137 | the chamber's own registrations do not change the three inputs its velocity reads |
| `Components.ChamberWithoutPerformance` | rocket_system.py:127-133 | a chamber that is not ready still declares the three performance keys, but assigns none of them |
| `Components.ContributeKeepsKeysDeclared` | rocket_system.py:118-153 | every contribution keeps every known value declared and every equation closed |
| `Assembly.MassKeyIsNoContributionKey` | rocket_system.py:223 | no `{name}_mass` key is a key any component writes |
| `Assembly.MassKeyInjective` | rocket_system.py:223 | different names give different mass keys |
| `Assembly.RegisterShape` | rocket_system.py:220-227 | one iteration of `_setup` adds no equation and declares exactly what the entry declares |
| `Assembly.RegisterValueAt` | rocket_system.py:220-227 | one iteration stores the entry's static write under a key, or leaves the key alone |
| `Assembly.SetupShape` | rocket_system.py:215-227 | `_setup` adds no equation and declares exactly the union of what its entries declare |
| `Assembly.SetupValueAt` | rocket_system.py:215-227 | outside the chamber's performance keys, `_setup` leaves under a key the last write to it in dictionary order |
| `Assembly.LastWriteIsLastWriter` | rocket_system.py:220-227 | `LastWrite` is the value of the last entry that writes the key, or the earlier value when no entry does |
| `Assembly.SetupLastWriterWins` | rocket_system.py:215-227 | when several components write a key, the last one in dictionary order wins; a key no one writes keeps its value |
| `Assembly.LastWriteIdempotent` | rocket_system.py:220-227 | replaying the same writes a second time changes nothing |
| `Assembly.SetupIdempotentWithoutChamber` | rocket_system.py:215-227 | over chamber-free components, rebuilding twice gives the same pool as rebuilding once |
| `Assembly.SetupPassOfTwo` | rocket_system.py:220-227 | a rebuild over two entries registers the first, then the second |
| `Assembly.RegisterChamberPerformance` | rocket_system.py:135-148 | a ready chamber whose `{name}_mass` is not `gamma`, `molecular_mass` or `exit_pressure` takes its registered Ve from the pool's values before it registers |
| `Assembly.RegisterKeepsPerformance` | rocket_system.py:220-227 | an entry that is not a chamber leaves the three performance values alone |
| `Assembly.ChamberThenNozzlePass` | rocket_system.py:220-227 | in one pass over a chamber and then a nozzle, the chamber's Ve ignores the nozzle's values |
| `Assembly.RebuildFeedsNozzleExitPressureToChamber` | rocket_system.py:215-232 | with a chamber before a nozzle, the first rebuild uses the default exit pressure and the second uses the nozzle's, so rebuilding is not idempotent |
| `Assembly.RebuildIsNotIdempotent` | rocket_system.py:215-232 | with a chamber before a nozzle whose exit pressure changes the velocity, a second rebuild does not give back the pool of the first |
| `Assembly.RegisterKeepsChamberInputs` | rocket_system.py:220-227 | no entry stores gamma or the molecular mass (unless its mass key has that name); a nozzle with a truthy exit pressure stores it |
| `Assembly.RegisterKeepsExitPressure` | rocket_system.py:220-227 | a chamber does not store the exit pressure |
| `Assembly.SetupKeepsKeysDeclared` | rocket_system.py:215-227 | `_setup` keeps every known value declared and every equation closed |
| `Assembly.SetupPerformance` | rocket_system.py:215-227 | when the last chamber is ready, the rebuilt pool holds thrust = its flow × Ve and Isp × G0 = Ve |
| `Assembly.RegisterKeepsPerformanceRelation` | rocket_system.py:220-227 | registering something other than a chamber keeps that relation |
| `Assembly.SetupWithoutReadyChamber` | rocket_system.py:215-227 | with no ready chamber, the rebuild leaves the three performance values as they were |
| `Assembly.PutIsAssignment` | rocket_system.py:229-231 | dictionary assignment: the name maps to the new component and the rest are unchanged; an existing name keeps its place and count, a new one is appended |
| `Assembly.PutNames` | rocket_system.py:229-231 | assignment renames no entry |
| `Assembly.FindAbsent` | rocket_system.py:229-231 | a name in no entry is not found |
| `Assembly.MassSumPointwise` | rocket_system.py:246-256 | if every component contributes its static mass, the total is the sum of the static masses |
| `Assembly.TotalMassAfterSetup` | rocket_system.py:246-256 | right after `_setup` with no equations, including any rebuild by `add_component`, solving changes nothing and the total mass is the sum of the truthy static masses, as long as no component without a truthy mass has a stale `{name}_mass` in the pool |
| `Assembly.StaleMassSurvivesRebuild` | rocket_system.py:222-223 | a component without a truthy mass gets no `{name}_mass` from `_setup`, so a value stored by an earlier pass survives and is what `total_mass` counts for it |
| `Assembly.ReportsEightChecks` | rocket_system.py:262-321 | the results have exactly the eight check names as keys |
| `Assembly.ReportsPerformanceChecks` | rocket_system.py:267-277 | `thrust_target` holds exactly when the thrust after the first solve is within 1000 N of 25 kN; `specific_impulse_range` exactly when that solve's Isp lies in [300, 450]; `thrust_to_weight` exactly when the ratio exceeds 1 |
| `Assembly.ReportsChamberChecks` | rocket_system.py:279-302 | `chamber_pressure_range` holds exactly when the late chamber pressure lies in [1e6, 2e7]; `mass_flow_rate_positive` exactly when the late total flow is positive; `of_ratio_reasonable` exactly when the fuel flow is positive and oxidizer over fuel lies in [4, 8] |
| `Assembly.ReportsHardwareChecks` | rocket_system.py:304-319 | `pump_pressure_adequate` holds exactly when tank and chamber pressures are nonzero and tank pressure plus pump gain exceeds chamber pressure; `expansion_ratio_reasonable` exactly when a first nozzle with a truthy ratio exists and its ratio lies in [10, 100] |
| `Assembly.PumpGainOnlyMovesPumpCheck` | rocket_system.py:305-311 | changing only the pump pressure gain in the values the checks read changes `pump_pressure_adequate` and none of the other seven outcomes |
| `Assembly.FuelFlowIsLastFuelPump` | rocket_system.py:289-296 | the fuel flow is that of the last pump whose name contains "fuel" |
| `Assembly.FuelFlowWithoutFuelPump` | rocket_system.py:289-296 | with no such pump, the fuel flow is 0 |
| `Assembly.OxidizerFlowIsLastOxidizerPump` | rocket_system.py:289-296 | the oxidizer flow is that of the last pump whose name contains "oxidizer" and not "fuel" |
| `Assembly.OxidizerFlowWithoutOxidizerPump` | rocket_system.py:289-296 | with no such pump, the oxidizer flow is 0 |
| `Assembly.LastFuelPumpExists` | rocket_system.py:289-296 | if some pump's name contains "fuel", there is a last such pump |
| `Assembly.OfRatioNeedsFuelFlow` | rocket_system.py:298-302 | the O/F check passes only if the last "fuel" pump has positive flow and oxidizer flow over that flow lies in [4, 8] |
| `Assembly.PumpPressureRule` | rocket_system.py:305-311 | pump pressure is adequate exactly when tank and chamber pressures are nonzero and tank pressure plus pump gain exceeds chamber pressure |
| `Assembly.FirstNozzleRatioIsFirst` | rocket_system.py:314-319 | the ratio chosen is that of the first nozzle with a truthy ratio, and none exactly when no nozzle has one |
| `Assembly.ExpansionRatioRule` | rocket_system.py:313-319 | the expansion check is false without such a nozzle, and otherwise passes exactly when the first one's ratio lies in [10, 100] |
| `Assembly.PropulsionSystem.constructor` | rocket_system.py:207-213 | the dataclass construction stores the components and runs `_setup` on the given pool |
| `Assembly.PropulsionSystem.Setup` | rocket_system.py:215-227 | the loop leaves the pool at `SetupPass(components, old pool)`; a pool whose values are all declared and whose equations are closed stays so |
| `Assembly.PropulsionSystem.AddComponent` | rocket_system.py:229-232 | components become `Put(old, name, component)`, names stay distinct, and the pool is rebuilt from its old state |
| `Assembly.PropulsionSystem.Solve` | rocket_system.py:234-236 | the pool becomes `Solve` of the old pool, and the pool's map is returned |
| `Assembly.PropulsionSystem.Thrust` | rocket_system.py:238-240 | after one solve, returns the solved thrust, or 0 when it is unknown |
| `Assembly.PropulsionSystem.SpecificImpulse` | rocket_system.py:242-244 | after one solve, returns the solved specific impulse, or 0 when it is unknown |
| `Assembly.PropulsionSystem.TotalMass` | rocket_system.py:246-256 | after one solve, returns the sum over components of the solved `{name}_mass` if present, else the truthy static mass, else 0 |
| `Assembly.PropulsionSystem.ThrustToWeightRatio` | rocket_system.py:258-260 | two solves; the thrust is from the first and the mass from the second, and the ratio is thrust / (mass × G0) |
| `Assembly.PropulsionSystem.ValidateConstraints` | rocket_system.py:262-321 | three solves; the checks read thrust and Isp after the first, the ratio from the next two, and everything else after all three |
| `Assembly.PropulsionSystem.RunChecks` | rocket_system.py:267-319 | the eight checks computed from the early values, the ratio, the late values and the components |
| `Assembly.PropulsionSystem.PumpFlowsOf` | rocket_system.py:289-296 | the O/F loop yields `PumpFlows(components)` |
| `Assembly.PropulsionSystem.ExpansionRatioOf` | rocket_system.py:314-319 | the `for ... else` loop yields the first nozzle's truthy ratio, or none |

## Left out

- The symbolic-algebra library (sympy) is not modelled.
  - Expressions are a small `Term` language with free symbols and substitution.
  - `solve` is an oracle (`Backend`): a function from the substituted equations and the unknowns to an optional map.
  - Lemmas that need the oracle to answer only unknowns take that as a precondition on the one call (`AnswerWithinUnknowns`).
- The isentropic exit-velocity formula (lines 140-147) is an uninterpreted function (`VelocityLaw`) of gamma, molecular mass, exit pressure, chamber pressure and temperature.
  - The model leaves out its square root and fractional power.
  - It also leaves out its domain errors, each of which Python raises out of `add_component` after the component is already stored in the dictionary:
    - division by a zero molecular mass, by `gamma` or by `gamma - 1`;
    - a zero exit pressure raised to a negative power, a `ZeroDivisionError`;
    - a negative pressure ratio raised to a fractional power, which gives a complex number so that `math.sqrt` raises `TypeError`;
    - `math.sqrt` of a negative number, a `ValueError`. With `gamma > 1` this happens when the exit pressure exceeds the chamber pressure, for instance a chamber below 101325 Pa while the default exit pressure is in use.
- The `try`/`except` of `solve_system` (lines 187-203) and the `float(val)` coercion are left out, because the oracle returns numbers only.
  - On an exception, `solve_system` only prints a warning (lines 202-203).
  - The solution is written key by key (lines 199-201), so an exception part-way leaves a partial merge.
  - The model follows the successful path only, and claims no atomicity.
- `Term` does not simplify the way sympy does.
  - In sympy, substituting `y = 0` into `Eq(x*y, 0)` yields `True`, with no free symbols, so `solve_system` exits early at line 194.
  - The model's `Unknowns` still holds `x` and asks the backend.
  - No component calls `add_constraint`, so the pool never holds an equation when the assembly is built from components.
- `Assembly.PropulsionSystem.ThrustToWeightRatio`: a zero total mass is excluded by a precondition; the `ZeroDivisionError` Python raises is not modelled.
- `Assembly.PropulsionSystem.ValidateConstraints`: the same precondition guards the ratio it computes.
- Python floats are modelled as mathematical reals: no rounding, infinities or NaN.
- The result dictionary of `validate_constraints` is built from a `Checks` record (`Checks.AsDict`). The record's eight fields are the eight keys.
- The `hasattr(comp, 'add_constraints')` test (line 226) is always true, because every component inherits the method. The model always calls it.
- The `add_constraints` of `Fluid`, of a `Fuel` used as a component and of the base `Component` adds nothing to the pool. `_setup` still declares their `{name}_mass` when their mass is truthy (lines 222-223). The injector's fields are carried but never read.
- Components are immutable values. In Python they are mutable objects held by reference, so a component changed after `add_component` would feed the next `_setup`, `total_mass` and `validate_constraints`. The model does not capture that aliasing: a component can change only by `add_component` under its name.
- `thrust` and `specific_impulse` are methods rather than functions, because the `solve()` they call changes the pool.
- `print_summary`, `demonstrate_constraints`, `create_test_suite`, `create_25kn_rocket` and the `__main__` block are printing and script code, and are not part of this model.
- The `LOX`, `LH2` and `Methane` subclasses only assign constants, and are not part of this model.
- `constraint_demo.py` is a demo script that refers to names the repository does not define, and is not part of this model.
- `Assembly.RebuildFeedsNozzleExitPressureToChamber` is stated for a chamber followed by one nozzle, with names whose mass keys avoid the three inputs the chamber reads. It is not stated for longer dictionaries.
