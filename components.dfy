/** The physical components and what each contributes to the shared pool
    (`add_constraints`), with the two guarded derivations `Fuel.R` and `Pump.power`. */
module Components {
  import opened Values
  import opened Constraints

  /** The isentropic exit-velocity relation of the combustion chamber, taken as
      given: (gamma, molecular mass of the products, exit pressure, chamber
      pressure, chamber temperature) to exit velocity. */
  type VelocityLaw = (real, real, real, real, real) -> real

  /** Values the chamber assumes when the pool does not know them. */
  const DefaultGamma: real := 1.2
  const DefaultMolecularMass: real := 18.0
  const DefaultExitPressure: real := 101325.0

  /** The four quantities the chamber registers with its own values. */
  const ChamberStaticKeys: set<string> := {"chamber_pressure", "chamber_temperature", "throat_area", "total_mass_flow_rate"}

  /** The three quantities the chamber computes directly. */
  const PerformanceKeys: set<string> := {"exit_velocity", "thrust", "specific_impulse"}

  datatype Fuel = Fuel(
    mass: Option<real>, volume: Option<real>, density: Option<real>,
    molecularMass: Option<real>, boilingPoint: Option<real>,
    combustionTemperature: Option<real>, specificHeat: Option<real>)
  {
    /** `Fuel.R`: the specific gas constant, defined only for a truthy molecular mass. */
    function GasConstant(): (r: Option<real>)
      ensures r.Some? <==> Truthy(molecularMass)
      ensures r.Some? ==> r.value * molecularMass.value == UniversalGasConstant
    {
      if Truthy(molecularMass) then Some(UniversalGasConstant / molecularMass.value) else None
    }
  }

  datatype Injector = Injector(efficiency: Option<real>, pressureLoss: Option<real>, designType: Option<string>)

  datatype Throat = Throat(area: Option<real>)

  /** The component classes. `Generic` is the base `Component`, `FluidPart` is
      `Fluid` and `Propellant` is a `Fuel` used as a component of its own. */
  datatype Component =
    | Generic(mass: Option<real>, volume: Option<real>, density: Option<real>)
    | FluidPart(mass: Option<real>, volume: Option<real>, density: Option<real>,
                pressure: Option<real>, temperature: Option<real>)
    | Propellant(fuel: Fuel)
    | Tank(mass: Option<real>, volume: Option<real>, density: Option<real>,
           contents: Option<Fuel>, pressure: Option<real>)
    | Pump(mass: Option<real>, volume: Option<real>, density: Option<real>,
           pressureGain: Option<real>, efficiency: Option<real>,
           massFlowRate: Option<real>, fluidDensity: Option<real>)
    | Chamber(mass: Option<real>, volume: Option<real>, density: Option<real>,
              injector: Option<Injector>, pressure: Option<real>, throat: Option<Throat>,
              temperature: Option<real>, massFlowRate: Option<real>)
    | Nozzle(mass: Option<real>, volume: Option<real>, density: Option<real>,
             expansionRatio: Option<real>, exitPressure: Option<real>,
             throatArea: Option<real>, exitArea: Option<real>)
  {
    /** The component's `mass` attribute. */
    function StaticMass(): Option<real> {
      if Propellant? then fuel.mass else mass
    }

    /** `Pump.power`: pressure gain times volumetric flow over efficiency, defined
        only when all four inputs are truthy. */
    function Power(): (r: Option<real>)
      requires Pump?
      ensures r.Some? <==> Truthy(pressureGain) && Truthy(massFlowRate) && Truthy(fluidDensity) && Truthy(efficiency)
      ensures r.Some? ==> r.value * efficiency.value * fluidDensity.value == pressureGain.value * massFlowRate.value
    {
      if Truthy(pressureGain) && Truthy(massFlowRate) && Truthy(fluidDensity) && Truthy(efficiency) then
        var volumetric := massFlowRate.value / fluidDensity.value;
        var p := pressureGain.value * volumetric / efficiency.value;
        assert volumetric * fluidDensity.value == massFlowRate.value;
        assert p * efficiency.value == pressureGain.value * volumetric;
        Some(p)
      else None
    }

    /** The chamber's inputs to the direct performance evaluation are all truthy. */
    predicate PerformanceReady()
      requires Chamber?
    {
      Truthy(pressure) && Truthy(temperature) && Truthy(massFlowRate)
    }

    /** Names this component may declare or write. */
    function OwnKeys(): set<string> {
      match this
      case Tank(_, _, _, _, _) => {"tank_pressure"}
      case Pump(_, _, _, _, _, _, _) => {"pump_pressure_gain", "pump_mass_flow_rate"}
      case Nozzle(_, _, _, _, _, _, _) => {"exit_pressure", "expansion_ratio"}
      case Chamber(_, _, _, _, _, _, _, _) =>
        {"chamber_pressure", "chamber_temperature", "throat_area", "total_mass_flow_rate"} + PerformanceKeys
      case _ => {}
    }

    /** Names this component declares, whatever the pool holds. */
    function Declares(): set<string> {
      match this
      case Tank(_, _, _, _, p) => if Truthy(p) then {"tank_pressure"} else {}
      case Pump(_, _, _, g, _, f, _) =>
        (if Truthy(g) then {"pump_pressure_gain"} else {}) + (if Truthy(f) then {"pump_mass_flow_rate"} else {})
      case Nozzle(_, _, _, e, x, _, _) =>
        (if Truthy(x) then {"exit_pressure"} else {}) + (if Truthy(e) then {"expansion_ratio"} else {})
      case Chamber(_, _, _, _, _, th, _, f) =>
        {"chamber_pressure", "chamber_temperature"}
        + (if th.Some? && Truthy(th.value.area) then {"throat_area"} else {})
        + (if Truthy(f) then {"total_mass_flow_rate"} else {})
        + PerformanceKeys
      case _ => {}
    }

    /** The value this component stores under `k` independently of the pool, or
        `None` when it stores nothing there; the chamber's performance keys are
        the only writes that depend on the pool and are not described here. */
    function StaticWrite(k: string): Option<real> {
      match this
      case Tank(_, _, _, _, p) => if k == "tank_pressure" && Truthy(p) then p else None
      case Pump(_, _, _, g, _, f, _) =>
        if k == "pump_mass_flow_rate" && Truthy(f) then f
        else if k == "pump_pressure_gain" && Truthy(g) then g
        else None
      case Nozzle(_, _, _, e, x, _, _) =>
        if k == "expansion_ratio" && Truthy(e) then e
        else if k == "exit_pressure" && Truthy(x) then x
        else None
      case Chamber(_, _, _, _, p, th, t, f) =>
        if k == "chamber_pressure" then p
        else if k == "chamber_temperature" then t
        else if k == "throat_area" && th.Some? && Truthy(th.value.area) then th.value.area
        else if k == "total_mass_flow_rate" && Truthy(f) then f
        else None
      case _ => None
    }

    /** `add_constraints` as a function of the pool before the call. */
    function Contribute(p: Pool, law: VelocityLaw): Pool {
      match this
      case Tank(_, _, _, _, pr) =>
        if Truthy(pr) then Declare(p, "tank_pressure", pr) else p
      case Pump(_, _, _, g, _, f, _) =>
        var p1 := if Truthy(g) then Declare(p, "pump_pressure_gain", g) else p;
        if Truthy(f) then Declare(p1, "pump_mass_flow_rate", f) else p1
      case Nozzle(_, _, _, e, x, _, _) =>
        var p1 := if Truthy(x) then Declare(p, "exit_pressure", x) else p;
        if Truthy(e) then Declare(p1, "expansion_ratio", e) else p1
      case Chamber(_, _, _, _, _, _, _, _) =>
        var declared := ChamberDeclarations(p);
        if PerformanceReady() then Performance(declared, law) else declared
      case _ => p
    }

    /** The chamber's registrations, before its direct evaluation. */
    function ChamberDeclarations(p: Pool): Pool
      requires Chamber?
    {
      var p1 := Declare(Declare(p, "chamber_pressure", pressure), "chamber_temperature", temperature);
      var p2 := if throat.Some? && Truthy(throat.value.area) then Declare(p1, "throat_area", throat.value.area) else p1;
      var p3 := if Truthy(massFlowRate) then Declare(p2, "total_mass_flow_rate", massFlowRate) else p2;
      Declare(Declare(Declare(p3, "exit_velocity", None), "thrust", None), "specific_impulse", None)
    }

    /** The chamber's direct evaluation: exit velocity from the law, with gamma,
        product molecular mass and exit pressure read from the pool or defaulted,
        then thrust and specific impulse from it. */
    function Performance(p: Pool, law: VelocityLaw): Pool
      requires Chamber? && PerformanceReady()
    {
      p.(values := WithPerformance(p.values, massFlowRate.value, ExitVelocity(p, law)))
    }

    function ExitVelocity(p: Pool, law: VelocityLaw): real
      requires Chamber? && PerformanceReady()
    {
      law(Get(p.values, "gamma", DefaultGamma), Get(p.values, "molecular_mass", DefaultMolecularMass),
          Get(p.values, "exit_pressure", DefaultExitPressure), pressure.value, temperature.value)
    }

    /** `add_constraints`, acting on a live constraint system. */
    method AddConstraints(cs: ConstraintSystem, law: VelocityLaw)
      modifies cs
      ensures cs.State() == Contribute(old(cs.State()), law)
    {
      match this
      case Tank(_, _, _, _, pr) =>
        if Truthy(pr) {
          cs.AddVariable("tank_pressure", pr);
        }
      case Pump(_, _, _, g, _, f, _) =>
        if Truthy(g) {
          cs.AddVariable("pump_pressure_gain", g);
        }
        if Truthy(f) {
          cs.AddVariable("pump_mass_flow_rate", f);
        }
      case Nozzle(_, _, _, e, x, _, _) =>
        if Truthy(x) {
          cs.AddVariable("exit_pressure", x);
        }
        if Truthy(e) {
          cs.AddVariable("expansion_ratio", e);
        }
      case Chamber(_, _, _, _, _, _, _, _) =>
        AddChamberConstraints(cs, law);
      case _ =>
    }

    /** The registrations of `Chamber.add_constraints`. */
    method DeclareChamberQuantities(cs: ConstraintSystem)
      requires Chamber?
      modifies cs
      ensures cs.State() == ChamberDeclarations(old(cs.State()))
    {
      cs.AddVariable("chamber_pressure", pressure);
      cs.AddVariable("chamber_temperature", temperature);
      if throat.Some? && Truthy(throat.value.area) {
        cs.AddVariable("throat_area", throat.value.area);
      }
      if Truthy(massFlowRate) {
        cs.AddVariable("total_mass_flow_rate", massFlowRate);
      }
      cs.AddVariable("exit_velocity", None);
      cs.AddVariable("thrust", None);
      cs.AddVariable("specific_impulse", None);
    }

    /** `Chamber.add_constraints`: registrations, then the direct evaluation. */
    method AddChamberConstraints(cs: ConstraintSystem, law: VelocityLaw)
      requires Chamber?
      modifies cs
      ensures cs.State() == Contribute(old(cs.State()), law)
    {
      DeclareChamberQuantities(cs);
      if Truthy(pressure) && Truthy(temperature) && Truthy(massFlowRate) {
        ghost var declared := cs.State();
        var gamma := Get(cs.solvedValues, "gamma", DefaultGamma);
        var m := Get(cs.solvedValues, "molecular_mass", DefaultMolecularMass);
        var pe := Get(cs.solvedValues, "exit_pressure", DefaultExitPressure);
        var ve := law(gamma, m, pe, pressure.value, temperature.value);
        assert ve == ExitVelocity(declared, law);
        var mdot := massFlowRate.value;
        ghost var expected := WithPerformance(cs.solvedValues, mdot, ve);
        cs.solvedValues := cs.solvedValues["exit_velocity" := ve];
        cs.solvedValues := cs.solvedValues["thrust" := mdot * ve];
        cs.solvedValues := cs.solvedValues["specific_impulse" := ve / G0];
        assert cs.solvedValues["specific_impulse"] == expected["specific_impulse"];
        assert cs.solvedValues["thrust"] == expected["thrust"];
        assert cs.solvedValues["exit_velocity"] == expected["exit_velocity"];
        assert cs.solvedValues.Keys == expected.Keys;
        assert cs.solvedValues == expected;
      }
    }
  }

  /** The three direct writes of the chamber: exit velocity, thrust and specific impulse. */
  function WithPerformance(vals: map<string, real>, massFlow: real, ve: real): map<string, real> {
    vals["exit_velocity" := ve]["thrust" := massFlow * ve]["specific_impulse" := ve / G0]
  }

  /** The chamber's registrations declare `Declares()`, add no equation and store
      exactly its static writes (the performance keys are declared empty). */
  lemma {:induction false} ChamberDeclarationsEffect(c: Component, p: Pool)
    requires c.Chamber?
    ensures c.ChamberDeclarations(p).variables == p.variables + c.Declares()
    ensures c.ChamberDeclarations(p).constraints == p.constraints
    ensures forall k :: Lookup(c.ChamberDeclarations(p).values, k)
                        == if c.StaticWrite(k).Some? then c.StaticWrite(k) else Lookup(p.values, k)
  {
    var p0 := Declare(p, "chamber_pressure", c.pressure);
    var p1 := Declare(p0, "chamber_temperature", c.temperature);
    var p2 := if c.throat.Some? && Truthy(c.throat.value.area) then Declare(p1, "throat_area", c.throat.value.area) else p1;
    var p3 := if Truthy(c.massFlowRate) then Declare(p2, "total_mass_flow_rate", c.massFlowRate) else p2;
    var p4 := Declare(p3, "exit_velocity", None);
    var p5 := Declare(p4, "thrust", None);
    assert c.ChamberDeclarations(p) == Declare(p5, "specific_impulse", None);
    assert p5.values == p3.values && Declare(p5, "specific_impulse", None).values == p3.values;
    forall k ensures Lookup(p3.values, k) == if c.StaticWrite(k).Some? then c.StaticWrite(k) else Lookup(p.values, k) {
      DeclareEffect(p, "chamber_pressure", c.pressure);
      DeclareEffect(p0, "chamber_temperature", c.temperature);
      if c.throat.Some? && Truthy(c.throat.value.area) {
        DeclareEffect(p1, "throat_area", c.throat.value.area);
      }
      if Truthy(c.massFlowRate) {
        DeclareEffect(p2, "total_mass_flow_rate", c.massFlowRate);
      }
      if k == "chamber_pressure" {
      } else if k == "chamber_temperature" {
      } else if k == "throat_area" {
      } else if k == "total_mass_flow_rate" {
      } else {
        assert c.StaticWrite(k) == None;
      }
    }
  }

  /** The direct evaluation writes only the three performance keys. */
  lemma PerformanceEffect(c: Component, q: Pool, law: VelocityLaw)
    requires c.Chamber? && c.PerformanceReady()
    ensures c.Performance(q, law).variables == q.variables
    ensures c.Performance(q, law).constraints == q.constraints
    ensures forall k :: k !in PerformanceKeys ==> Lookup(c.Performance(q, law).values, k) == Lookup(q.values, k)
    ensures var v := c.Performance(q, law).values;
            && "exit_velocity" in v && "thrust" in v && "specific_impulse" in v
            && v["exit_velocity"] == c.ExitVelocity(q, law)
            && v["thrust"] == c.massFlowRate.value * v["exit_velocity"]
            && v["specific_impulse"] * G0 == v["exit_velocity"]
  {
    var ve := c.ExitVelocity(q, law);
    var v := c.Performance(q, law).values;
    assert v == WithPerformance(q.values, c.massFlowRate.value, ve);
    assert v["specific_impulse"] == ve / G0;
  }

  /** The chamber's whole contribution, away from the performance keys. */
  lemma ChamberContributionIsStatic(c: Component, p: Pool, law: VelocityLaw)
    requires c.Chamber?
    ensures c.Contribute(p, law).variables == p.variables + c.Declares()
    ensures c.Contribute(p, law).constraints == p.constraints
    ensures forall k :: k !in PerformanceKeys ==>
              Lookup(c.Contribute(p, law).values, k)
              == if c.StaticWrite(k).Some? then c.StaticWrite(k) else Lookup(p.values, k)
  {
    var declared := c.ChamberDeclarations(p);
    ChamberDeclarationsEffect(c, p);
    if c.PerformanceReady() {
      PerformanceEffect(c, declared, law);
    }
  }

  /** A contributor touches nothing beyond its own keys: it adds no equation,
      declares only own keys and leaves every other value as it was. */
  lemma ContributeStaysInOwnKeys(c: Component, p: Pool, law: VelocityLaw)
    ensures c.Contribute(p, law).constraints == p.constraints
    ensures p.variables <= c.Contribute(p, law).variables <= p.variables + c.OwnKeys()
    ensures forall k :: k !in c.OwnKeys() ==> Lookup(c.Contribute(p, law).values, k) == Lookup(p.values, k)
  {
    if c.Chamber? {
      ChamberStaysInOwnKeys(c, p, law);
    } else {
      DeclarerStaysInOwnKeys(c, p, law);
    }
  }

  /** `ContributeStaysInOwnKeys` for a chamber. */
  lemma ChamberStaysInOwnKeys(c: Component, p: Pool, law: VelocityLaw)
    requires c.Chamber?
    ensures c.Contribute(p, law).constraints == p.constraints
    ensures p.variables <= c.Contribute(p, law).variables <= p.variables + c.OwnKeys()
    ensures forall k :: k !in c.OwnKeys() ==> Lookup(c.Contribute(p, law).values, k) == Lookup(p.values, k)
  {
    ChamberContributionIsStatic(c, p, law);
    assert c.Declares() <= c.OwnKeys();
    forall k | k !in c.OwnKeys()
      ensures Lookup(c.Contribute(p, law).values, k) == Lookup(p.values, k)
    {
      StaticWriteIsOwnKey(c, k);
      assert k !in PerformanceKeys;
    }
  }

  /** Whatever a component writes independently of the pool is one of its own keys. */
  lemma StaticWriteIsOwnKey(c: Component, k: string)
    ensures c.StaticWrite(k).Some? ==> k in c.OwnKeys()
  {
  }

  /** `ContributeStaysInOwnKeys` for every other component. */
  lemma DeclarerStaysInOwnKeys(c: Component, p: Pool, law: VelocityLaw)
    requires !c.Chamber?
    ensures c.Contribute(p, law).constraints == p.constraints
    ensures p.variables <= c.Contribute(p, law).variables <= p.variables + c.OwnKeys()
    ensures forall k :: k !in c.OwnKeys() ==> Lookup(c.Contribute(p, law).values, k) == Lookup(p.values, k)
  {
    if c.Tank? {
      DeclareIfEffect(p, Truthy(c.pressure), "tank_pressure", c.pressure);
    } else if c.Pump? {
      var p1 := if Truthy(c.pressureGain) then Declare(p, "pump_pressure_gain", c.pressureGain) else p;
      DeclareIfEffect(p, Truthy(c.pressureGain), "pump_pressure_gain", c.pressureGain);
      DeclareIfEffect(p1, Truthy(c.massFlowRate), "pump_mass_flow_rate", c.massFlowRate);
    } else if c.Nozzle? {
      var p1 := if Truthy(c.exitPressure) then Declare(p, "exit_pressure", c.exitPressure) else p;
      DeclareIfEffect(p, Truthy(c.exitPressure), "exit_pressure", c.exitPressure);
      DeclareIfEffect(p1, Truthy(c.expansionRatio), "expansion_ratio", c.expansionRatio);
    }
  }

  /** A declaration made only when `b` holds adds no equation, declares at most
      `n` and changes no value except that of `n`. */
  lemma DeclareIfEffect(p: Pool, b: bool, n: string, v: Option<real>)
    ensures (if b then Declare(p, n, v) else p).constraints == p.constraints
    ensures p.variables <= (if b then Declare(p, n, v) else p).variables <= p.variables + {n}
    ensures forall k :: k != n ==> Lookup((if b then Declare(p, n, v) else p).values, k) == Lookup(p.values, k)
  {
    DeclareEffect(p, n, v);
  }

  /** Apart from the chamber's performance keys, a contribution declares exactly
      `Declares()` and stores exactly its static writes. */
  lemma ContributeIsStatic(c: Component, p: Pool, law: VelocityLaw, k: string)
    requires k !in PerformanceKeys || !c.Chamber?
    ensures c.Contribute(p, law).variables == p.variables + c.Declares()
    ensures Lookup(c.Contribute(p, law).values, k) == if c.StaticWrite(k).Some? then c.StaticWrite(k) else Lookup(p.values, k)
  {
    if c.Chamber? {
      ChamberContributionIsStatic(c, p, law);
    }
  }

  /** `Tank.add_constraints` writes only `tank_pressure`, and only when the
      pressure is truthy. */
  lemma TankContribution(c: Component, p: Pool, law: VelocityLaw)
    requires c.Tank?
    ensures c.Contribute(p, law).variables == p.variables + (if Truthy(c.pressure) then {"tank_pressure"} else {})
    ensures forall k :: k != "tank_pressure" ==> Lookup(c.Contribute(p, law).values, k) == Lookup(p.values, k)
    ensures Lookup(c.Contribute(p, law).values, "tank_pressure")
            == if Truthy(c.pressure) then c.pressure else Lookup(p.values, "tank_pressure")
  {
  }

  /** `Pump.add_constraints` writes only its pressure gain and mass flow rate, each
      guarded by truthiness. */
  lemma PumpContribution(c: Component, p: Pool, law: VelocityLaw)
    requires c.Pump?
    ensures forall k :: k != "pump_pressure_gain" && k != "pump_mass_flow_rate" ==>
              Lookup(c.Contribute(p, law).values, k) == Lookup(p.values, k)
    ensures Lookup(c.Contribute(p, law).values, "pump_pressure_gain")
            == if Truthy(c.pressureGain) then c.pressureGain else Lookup(p.values, "pump_pressure_gain")
    ensures Lookup(c.Contribute(p, law).values, "pump_mass_flow_rate")
            == if Truthy(c.massFlowRate) then c.massFlowRate else Lookup(p.values, "pump_mass_flow_rate")
  {
  }

  /** `Nozzle.add_constraints` writes only its exit pressure and expansion ratio,
      each guarded by truthiness. */
  lemma NozzleContribution(c: Component, p: Pool, law: VelocityLaw)
    requires c.Nozzle?
    ensures forall k :: k != "exit_pressure" && k != "expansion_ratio" ==>
              Lookup(c.Contribute(p, law).values, k) == Lookup(p.values, k)
    ensures Lookup(c.Contribute(p, law).values, "exit_pressure")
            == if Truthy(c.exitPressure) then c.exitPressure else Lookup(p.values, "exit_pressure")
    ensures Lookup(c.Contribute(p, law).values, "expansion_ratio")
            == if Truthy(c.expansionRatio) then c.expansionRatio else Lookup(p.values, "expansion_ratio")
  {
  }

  /** The performance quantities are present, the thrust is `mdot` times the
      exit velocity and the specific impulse times g0 is the exit velocity. */
  predicate PerformanceRelation(v: map<string, real>, mdot: real) {
    && "exit_velocity" in v && "thrust" in v && "specific_impulse" in v
    && v["thrust"] == mdot * v["exit_velocity"]
    && v["specific_impulse"] * G0 == v["exit_velocity"]
  }

  /** A chamber with truthy pressure, temperature and mass flow declares its three
      performance quantities and stores thrust = mass flow times exit velocity and
      specific impulse = exit velocity / G0, the velocity coming from the law with
      the pool's gamma, molecular mass and exit pressure (or their defaults). */
  lemma ChamberPerformance(c: Component, p: Pool, law: VelocityLaw)
    requires c.Chamber? && c.PerformanceReady()
    ensures PerformanceKeys <= c.Contribute(p, law).variables
    ensures PerformanceRelation(c.Contribute(p, law).values, c.massFlowRate.value)
    ensures c.Contribute(p, law).values["exit_velocity"]
            == law(Get(p.values, "gamma", DefaultGamma),
                   Get(p.values, "molecular_mass", DefaultMolecularMass),
                   Get(p.values, "exit_pressure", DefaultExitPressure),
                   c.pressure.value, c.temperature.value)
  {
    var declared := c.ChamberDeclarations(p);
    ChamberReadsPoolBefore(c, p, law);
    PerformanceEffect(c, declared, law);
  }

  /** The registrations do not touch the three names the velocity reads, so the
      chamber's velocity is that of the pool before its call. */
  lemma ChamberReadsPoolBefore(c: Component, p: Pool, law: VelocityLaw)
    requires c.Chamber? && c.PerformanceReady()
    ensures c.ExitVelocity(c.ChamberDeclarations(p), law)
            == law(Get(p.values, "gamma", DefaultGamma),
                   Get(p.values, "molecular_mass", DefaultMolecularMass),
                   Get(p.values, "exit_pressure", DefaultExitPressure),
                   c.pressure.value, c.temperature.value)
  {
    ChamberDeclarationsKeepOthers(c, p);
  }

  /** The chamber's registrations store values only under its four static keys. */
  lemma ChamberDeclarationsKeepOthers(c: Component, p: Pool)
    requires c.Chamber?
    ensures forall k :: k !in ChamberStaticKeys ==> Lookup(c.ChamberDeclarations(p).values, k) == Lookup(p.values, k)
  {
    var declared := c.ChamberDeclarations(p);
    assert declared.values.Keys <= p.values.Keys + ChamberStaticKeys;
    assert forall k :: k !in ChamberStaticKeys && k in p.values ==> declared.values[k] == p.values[k];
  }

  /** A chamber lacking a truthy pressure, temperature or mass flow still declares
      its three performance quantities, but leaves their values as they were. */
  lemma ChamberWithoutPerformance(c: Component, p: Pool, law: VelocityLaw)
    requires c.Chamber? && !c.PerformanceReady()
    ensures PerformanceKeys <= c.Contribute(p, law).variables
    ensures forall k :: k in PerformanceKeys ==> Lookup(c.Contribute(p, law).values, k) == Lookup(p.values, k)
  {
    ChamberDeclarationsKeepOthers(c, p);
    assert PerformanceKeys !! ChamberStaticKeys;
  }

  /** A contribution keeps every known value declared and every equation closed. */
  lemma ContributeKeepsKeysDeclared(c: Component, p: Pool, law: VelocityLaw)
    requires KeysDeclared(p) && Closed(p)
    ensures KeysDeclared(c.Contribute(p, law)) && Closed(c.Contribute(p, law))
  {
    ContributeStaysInOwnKeys(c, p, law);
    if c.Chamber? {
      ChamberContributionIsStatic(c, p, law);
      assert PerformanceKeys <= c.Declares();
      if c.PerformanceReady() {
        PerformanceEffect(c, c.ChamberDeclarations(p), law);
      }
    }
  }
}
