/** The propulsion assembly (`PropulsionSystem`): an insertion-ordered collection of
    named components over one shared constraint system, rebuilt in full whenever a
    component is added, with the derived system-level queries and the validation
    battery. */
module Assembly {
  import opened Values
  import opened Constraints
  import opened Components

  /** One `(name, component)` item of the component dictionary. */
  type Entry = (string, Component)

  /** The pool key of a component's mass: `f"{name}_mass"`. */
  function MassKey(name: string): string {
    name + "_mass"
  }

  /** A mass key ends in "s", which no key written by a contribution does. */
  lemma MassKeyIsNoContributionKey(name: string)
    ensures MassKey(name) !in PerformanceKeys
    ensures forall c: Component :: MassKey(name) !in c.OwnKeys()
  {
    var k := MassKey(name);
    assert k[|k| - 1] == 's';
  }

  /** A dictionary has each key once. */
  ghost predicate DistinctNames(comps: seq<Entry>) {
    forall i, j :: 0 <= i < j < |comps| ==> comps[i].0 != comps[j].0
  }

  predicate NoChamber(comps: seq<Entry>) {
    forall i :: 0 <= i < |comps| ==> !comps[i].1.Chamber?
  }

  // ---------------------------------------------------------------------------
  // _setup

  /** One iteration of `_setup`: the mass when truthy, then the component's own
      contribution. */
  function Register(e: Entry, p: Pool, law: VelocityLaw): Pool {
    var m := e.1.StaticMass();
    e.1.Contribute(if Truthy(m) then Declare(p, MassKey(e.0), m) else p, law)
  }

  /** `_setup` over the components in dictionary order, from a given pool. */
  function SetupPass(comps: seq<Entry>, p: Pool, law: VelocityLaw): Pool
    decreases |comps|
  {
    if comps == [] then p
    else Register(comps[|comps| - 1], SetupPass(comps[..|comps| - 1], p, law), law)
  }

  /** Names one entry declares, whatever the pool holds. */
  function EntryDeclares(e: Entry): set<string> {
    (if Truthy(e.1.StaticMass()) then {MassKey(e.0)} else {}) + e.1.Declares()
  }

  /** The union of `EntryDeclares` over a list of entries. */
  function DeclaredBy(comps: seq<Entry>): set<string>
    decreases |comps|
  {
    if comps == [] then {} else DeclaredBy(comps[..|comps| - 1]) + EntryDeclares(comps[|comps| - 1])
  }

  /** The value one entry stores under `k` without looking at the pool (the
      chamber's performance keys aside), `None` when it stores nothing there. */
  function EntryWrite(e: Entry, k: string): Option<real> {
    var w := e.1.StaticWrite(k);
    if w.Some? then w
    else if k == MassKey(e.0) && Truthy(e.1.StaticMass()) then e.1.StaticMass()
    else None
  }

  /** The value under `k` after a series of writes: that of the last entry writing
      `k`, or `before` when none does. */
  function LastWrite(comps: seq<Entry>, k: string, before: Option<real>): Option<real>
    decreases |comps|
  {
    if comps == [] then before
    else if EntryWrite(comps[|comps| - 1], k).Some? then EntryWrite(comps[|comps| - 1], k)
    else LastWrite(comps[..|comps| - 1], k, before)
  }

  /** Different names give different mass keys. */
  lemma MassKeyInjective(a: string, b: string)
    ensures MassKey(a) == MassKey(b) ==> a == b
  {
    if MassKey(a) == MassKey(b) {
      assert a == MassKey(a)[..|a|];
      assert b == MassKey(b)[..|b|];
    }
  }

  lemma RegisterShape(e: Entry, p: Pool, law: VelocityLaw)
    ensures Register(e, p, law).variables == p.variables + EntryDeclares(e)
    ensures Register(e, p, law).constraints == p.constraints
  {
    var m := e.1.StaticMass();
    var p1 := if Truthy(m) then Declare(p, MassKey(e.0), m) else p;
    ContributeIsStatic(e.1, p1, law, "");
    ContributeStaysInOwnKeys(e.1, p1, law);
  }

  lemma RegisterValueAt(e: Entry, p: Pool, law: VelocityLaw, k: string)
    requires k !in PerformanceKeys || !e.1.Chamber?
    ensures Lookup(Register(e, p, law).values, k)
            == if EntryWrite(e, k).Some? then EntryWrite(e, k) else Lookup(p.values, k)
  {
    var m := e.1.StaticMass();
    var p1 := if Truthy(m) then Declare(p, MassKey(e.0), m) else p;
    ContributeIsStatic(e.1, p1, law, k);
  }

  /** `_setup` adds no equation and declares exactly what its entries declare. */
  lemma {:induction false} SetupShape(comps: seq<Entry>, p: Pool, law: VelocityLaw)
    ensures SetupPass(comps, p, law).variables == p.variables + DeclaredBy(comps)
    ensures SetupPass(comps, p, law).constraints == p.constraints
    decreases |comps|
  {
    if comps != [] {
      var init := comps[..|comps| - 1];
      SetupShape(init, p, law);
      RegisterShape(comps[|comps| - 1], SetupPass(init, p, law), law);
    }
  }

  /** Outside the chamber's performance keys, the value `_setup` leaves under `k`
      is the last write to `k` in dictionary order. */
  lemma {:induction false} SetupValueAt(comps: seq<Entry>, p: Pool, law: VelocityLaw, k: string)
    requires k !in PerformanceKeys || NoChamber(comps)
    ensures Lookup(SetupPass(comps, p, law).values, k) == LastWrite(comps, k, Lookup(p.values, k))
    decreases |comps|
  {
    if comps != [] {
      var init := comps[..|comps| - 1];
      SetupValueAt(init, p, law, k);
      RegisterValueAt(comps[|comps| - 1], SetupPass(init, p, law), law, k);
    }
  }

  /** `LastWrite` is the value of the last writer, and `before` without one. */
  lemma {:induction false} LastWriteIsLastWriter(comps: seq<Entry>, k: string, before: Option<real>)
    ensures (forall i :: 0 <= i < |comps| ==> EntryWrite(comps[i], k).None?) ==> LastWrite(comps, k, before) == before
    ensures forall j :: 0 <= j < |comps| && EntryWrite(comps[j], k).Some?
                        && (forall i :: j < i < |comps| ==> EntryWrite(comps[i], k).None?)
                        ==> LastWrite(comps, k, before) == EntryWrite(comps[j], k)
    decreases |comps|
  {
    if comps != [] {
      var init := comps[..|comps| - 1];
      LastWriteIsLastWriter(init, k, before);
      if forall i :: 0 <= i < |comps| ==> EntryWrite(comps[i], k).None? {
        assert forall i :: 0 <= i < |init| ==> EntryWrite(init[i], k) == EntryWrite(comps[i], k);
      }
      forall j | 0 <= j < |comps| && EntryWrite(comps[j], k).Some?
                 && (forall i :: j < i < |comps| ==> EntryWrite(comps[i], k).None?)
        ensures LastWrite(comps, k, before) == EntryWrite(comps[j], k)
      {
        if j < |comps| - 1 {
          assert EntryWrite(comps[|comps| - 1], k).None?;
          assert init[j] == comps[j];
          assert forall i :: j < i < |init| ==> EntryWrite(init[i], k) == EntryWrite(comps[i], k);
        }
      }
    }
  }

  /** When several components write the same key, the last one in dictionary
      order wins; a key nobody writes keeps its earlier value. */
  lemma SetupLastWriterWins(comps: seq<Entry>, p: Pool, law: VelocityLaw, k: string)
    requires k !in PerformanceKeys || NoChamber(comps)
    ensures (forall i :: 0 <= i < |comps| ==> EntryWrite(comps[i], k).None?)
            ==> Lookup(SetupPass(comps, p, law).values, k) == Lookup(p.values, k)
    ensures forall j :: 0 <= j < |comps| && EntryWrite(comps[j], k).Some?
                        && (forall i :: j < i < |comps| ==> EntryWrite(comps[i], k).None?)
                        ==> Lookup(SetupPass(comps, p, law).values, k) == EntryWrite(comps[j], k)
  {
    SetupValueAt(comps, p, law, k);
    LastWriteIsLastWriter(comps, k, Lookup(p.values, k));
  }

  lemma {:induction false} LastWriteIdempotent(comps: seq<Entry>, k: string, before: Option<real>)
    ensures LastWrite(comps, k, LastWrite(comps, k, before)) == LastWrite(comps, k, before)
    decreases |comps|
  {
    if comps != [] && EntryWrite(comps[|comps| - 1], k).None? {
      var init := comps[..|comps| - 1];
      LastWriteIdempotent(init, k, before);
    }
  }

  /** Re-running `_setup` over components without a chamber gives the same pool
      as running it once. */
  lemma SetupIdempotentWithoutChamber(comps: seq<Entry>, p: Pool, law: VelocityLaw)
    requires NoChamber(comps)
    ensures SetupPass(comps, SetupPass(comps, p, law), law) == SetupPass(comps, p, law)
  {
    var once := SetupPass(comps, p, law);
    var twice := SetupPass(comps, once, law);
    SetupShape(comps, p, law);
    SetupShape(comps, once, law);
    forall k ensures Lookup(twice.values, k) == Lookup(once.values, k) {
      SetupValueAt(comps, p, law, k);
      SetupValueAt(comps, once, law, k);
      LastWriteIdempotent(comps, k, Lookup(p.values, k));
    }
    LookupExtensionality(twice.values, once.values);
  }

  lemma SetupPassOfTwo(a: Entry, b: Entry, q: Pool, law: VelocityLaw)
    ensures SetupPass([a, b], q, law) == Register(b, Register(a, q, law), law)
  {
    assert [a, b][..1] == [a];
    assert [a][..0] == [];
    assert SetupPass([a], q, law) == Register(a, q, law);
  }

  /** What a ready chamber registers as exit velocity, when its mass key is none
      of the three names it reads. */
  lemma RegisterChamberPerformance(e: Entry, q: Pool, law: VelocityLaw)
    requires e.1.Chamber? && e.1.PerformanceReady()
    requires MassKey(e.0) != "gamma" && MassKey(e.0) != "molecular_mass" && MassKey(e.0) != "exit_pressure"
    ensures var v := Register(e, q, law).values;
            && "exit_velocity" in v
            && v["exit_velocity"] == law(Get(q.values, "gamma", DefaultGamma),
                                         Get(q.values, "molecular_mass", DefaultMolecularMass),
                                         Get(q.values, "exit_pressure", DefaultExitPressure),
                                         e.1.pressure.value, e.1.temperature.value)
  {
    var m := e.1.StaticMass();
    var pm := if Truthy(m) then Declare(q, MassKey(e.0), m) else q;
    ChamberPerformance(e.1, pm, law);
  }

  /** A component other than a chamber leaves the performance values alone. */
  lemma RegisterKeepsPerformance(e: Entry, q: Pool, law: VelocityLaw)
    requires !e.1.Chamber?
    ensures forall k :: k in PerformanceKeys ==> Lookup(Register(e, q, law).values, k) == Lookup(q.values, k)
  {
    MassKeyIsNoContributionKey(e.0);
    forall k | k in PerformanceKeys
      ensures Lookup(Register(e, q, law).values, k) == Lookup(q.values, k)
    {
      RegisterValueAt(e, q, law, k);
      StaticWriteIsOwnKey(e.1, k);
      ContributeStaysInOwnKeys(e.1, q, law);
    }
  }

  /** One pass over a chamber followed by a nozzle: the chamber's exit velocity
      is computed from the gamma, molecular mass and exit pressure the pool held
      before the pass, the nozzle's own values coming too late. */
  lemma ChamberThenNozzlePass(a: Entry, b: Entry, q: Pool, law: VelocityLaw)
    requires a.1.Chamber? && a.1.PerformanceReady() && !b.1.Chamber?
    requires MassKey(a.0) != "gamma" && MassKey(a.0) != "molecular_mass" && MassKey(a.0) != "exit_pressure"
    ensures var v := SetupPass([a, b], q, law).values;
            && "exit_velocity" in v
            && v["exit_velocity"] == law(Get(q.values, "gamma", DefaultGamma),
                                         Get(q.values, "molecular_mass", DefaultMolecularMass),
                                         Get(q.values, "exit_pressure", DefaultExitPressure),
                                         a.1.pressure.value, a.1.temperature.value)
  {
    SetupPassOfTwo(a, b, q, law);
    RegisterChamberPerformance(a, q, law);
    RegisterKeepsPerformance(b, Register(a, q, law), law);
    assert "exit_velocity" in PerformanceKeys;
  }

  /** The chamber is why the rebuild is not idempotent in general: it reads the
      exit pressure when it registers, so a nozzle after it in dictionary order is
      felt only from the second pass on. (A component whose mass key is one of
      the three names the chamber reads would feed it too; the names here avoid
      that.) */
  lemma RebuildFeedsNozzleExitPressureToChamber(a: Entry, b: Entry, p: Pool, law: VelocityLaw)
    requires a.1.Chamber? && a.1.PerformanceReady() && b.1.Nozzle? && Truthy(b.1.exitPressure)
    requires MassKey(a.0) != "gamma" && MassKey(a.0) != "molecular_mass" && MassKey(a.0) != "exit_pressure"
    requires MassKey(b.0) != "gamma" && MassKey(b.0) != "molecular_mass"
    requires "gamma" !in p.values && "molecular_mass" !in p.values && "exit_pressure" !in p.values
    ensures var once := SetupPass([a, b], p, law);
            var twice := SetupPass([a, b], once, law);
            && "exit_velocity" in once.values && "exit_velocity" in twice.values
            && once.values["exit_velocity"]
               == law(DefaultGamma, DefaultMolecularMass, DefaultExitPressure, a.1.pressure.value, a.1.temperature.value)
            && twice.values["exit_velocity"]
               == law(DefaultGamma, DefaultMolecularMass, b.1.exitPressure.value, a.1.pressure.value, a.1.temperature.value)
  {
    var once := SetupPass([a, b], p, law);
    SetupPassOfTwo(a, b, p, law);
    ChamberThenNozzlePass(a, b, p, law);
    ChamberThenNozzlePass(a, b, once, law);
    RegisterKeepsChamberInputs(a, p, law);
    RegisterKeepsChamberInputs(b, Register(a, p, law), law);
    RegisterKeepsExitPressure(a, p, law);
  }

  /** So, whenever the nozzle's exit pressure changes the law's result, a second
      rebuild over a chamber followed by a nozzle does not give back the pool of
      the first: `_setup` is not idempotent. */
  lemma RebuildIsNotIdempotent(a: Entry, b: Entry, p: Pool, law: VelocityLaw)
    requires a.1.Chamber? && a.1.PerformanceReady() && b.1.Nozzle? && Truthy(b.1.exitPressure)
    requires MassKey(a.0) != "gamma" && MassKey(a.0) != "molecular_mass" && MassKey(a.0) != "exit_pressure"
    requires MassKey(b.0) != "gamma" && MassKey(b.0) != "molecular_mass"
    requires "gamma" !in p.values && "molecular_mass" !in p.values && "exit_pressure" !in p.values
    requires law(DefaultGamma, DefaultMolecularMass, DefaultExitPressure, a.1.pressure.value, a.1.temperature.value)
             != law(DefaultGamma, DefaultMolecularMass, b.1.exitPressure.value, a.1.pressure.value, a.1.temperature.value)
    ensures SetupPass([a, b], SetupPass([a, b], p, law), law) != SetupPass([a, b], p, law)
  {
    RebuildFeedsNozzleExitPressureToChamber(a, b, p, law);
    var once := SetupPass([a, b], p, law);
    assert SetupPass([a, b], once, law).values["exit_velocity"] != once.values["exit_velocity"];
  }

  /** No component stores gamma or the molecular mass unless its mass key is
      that name. */
  lemma RegisterKeepsChamberInputs(e: Entry, q: Pool, law: VelocityLaw)
    requires MassKey(e.0) != "gamma" && MassKey(e.0) != "molecular_mass"
    ensures Lookup(Register(e, q, law).values, "gamma") == Lookup(q.values, "gamma")
    ensures Lookup(Register(e, q, law).values, "molecular_mass") == Lookup(q.values, "molecular_mass")
    ensures e.1.Nozzle? && Truthy(e.1.exitPressure) ==>
              Lookup(Register(e, q, law).values, "exit_pressure") == e.1.exitPressure
  {
    RegisterValueAt(e, q, law, "gamma");
    RegisterValueAt(e, q, law, "molecular_mass");
    RegisterValueAt(e, q, law, "exit_pressure");
  }

  /** A chamber does not store the exit pressure unless its mass key is that name. */
  lemma RegisterKeepsExitPressure(e: Entry, q: Pool, law: VelocityLaw)
    requires e.1.Chamber? && MassKey(e.0) != "exit_pressure"
    ensures Lookup(Register(e, q, law).values, "exit_pressure") == Lookup(q.values, "exit_pressure")
  {
    RegisterValueAt(e, q, law, "exit_pressure");
  }

  /** `_setup` keeps every known value declared and every equation closed. */
  lemma {:induction false} SetupKeepsKeysDeclared(comps: seq<Entry>, p: Pool, law: VelocityLaw)
    requires KeysDeclared(p) && Closed(p)
    ensures KeysDeclared(SetupPass(comps, p, law)) && Closed(SetupPass(comps, p, law))
    decreases |comps|
  {
    if comps != [] {
      var init := comps[..|comps| - 1];
      var e := comps[|comps| - 1];
      SetupKeepsKeysDeclared(init, p, law);
      var q := SetupPass(init, p, law);
      var m := e.1.StaticMass();
      var q1 := if Truthy(m) then Declare(q, MassKey(e.0), m) else q;
      ContributeKeepsKeysDeclared(e.1, q1, law);
    }
  }

  /** When the last chamber in dictionary order has truthy pressure, temperature
      and mass flow, the rebuilt pool holds thrust = its mass flow times the exit
      velocity and specific impulse = exit velocity / G0. */
  lemma {:induction false} SetupPerformance(comps: seq<Entry>, p: Pool, law: VelocityLaw, j: nat)
    requires j < |comps| && comps[j].1.Chamber? && comps[j].1.PerformanceReady()
    requires forall i :: j < i < |comps| ==> !comps[i].1.Chamber?
    ensures PerformanceRelation(SetupPass(comps, p, law).values, comps[j].1.massFlowRate.value)
    decreases |comps|
  {
    var init := comps[..|comps| - 1];
    var e := comps[|comps| - 1];
    var q := SetupPass(init, p, law);
    assert SetupPass(comps, p, law) == Register(e, q, law);
    if j == |comps| - 1 {
      var m := e.1.StaticMass();
      var r := if Truthy(m) then Declare(q, MassKey(e.0), m) else q;
      assert Register(e, q, law) == e.1.Contribute(r, law);
      ChamberPerformance(e.1, r, law);
    } else {
      assert init[j] == comps[j];
      assert forall i :: j < i < |init| ==> init[i] == comps[i];
      SetupPerformance(init, p, law, j);
      RegisterKeepsPerformanceRelation(e, q, law, comps[j].1.massFlowRate.value);
    }
  }

  /** Registering a component that is not a chamber keeps the relation. */
  lemma RegisterKeepsPerformanceRelation(e: Entry, q: Pool, law: VelocityLaw, mdot: real)
    requires !e.1.Chamber? && PerformanceRelation(q.values, mdot)
    ensures PerformanceRelation(Register(e, q, law).values, mdot)
  {
    RegisterKeepsPerformance(e, q, law);
    var v := Register(e, q, law).values;
    assert Lookup(v, "exit_velocity") == Lookup(q.values, "exit_velocity");
    assert Lookup(v, "thrust") == Lookup(q.values, "thrust");
    assert Lookup(v, "specific_impulse") == Lookup(q.values, "specific_impulse");
  }

  /** A chamber lacking pressure, temperature or mass flow adds no performance
      value: with no ready chamber, the three values stay whatever they were (in
      a fresh pool, absent). */
  lemma {:induction false} SetupWithoutReadyChamber(comps: seq<Entry>, p: Pool, law: VelocityLaw)
    requires forall i :: 0 <= i < |comps| ==> comps[i].1.Chamber? ==> !comps[i].1.PerformanceReady()
    ensures forall k :: k in PerformanceKeys ==> Lookup(SetupPass(comps, p, law).values, k) == Lookup(p.values, k)
    decreases |comps|
  {
    if comps != [] {
      var init := comps[..|comps| - 1];
      var e := comps[|comps| - 1];
      SetupWithoutReadyChamber(init, p, law);
      var q := SetupPass(init, p, law);
      var m := e.1.StaticMass();
      var q1 := if Truthy(m) then Declare(q, MassKey(e.0), m) else q;
      MassKeyIsNoContributionKey(e.0);
      if e.1.Chamber? {
        ChamberWithoutPerformance(e.1, q1, law);
      } else {
        ContributeStaysInOwnKeys(e.1, q1, law);
      }
    }
  }

  // ---------------------------------------------------------------------------
  // add_component

  /** The component stored under `name`. */
  function Find(comps: seq<Entry>, name: string): Option<Component>
    decreases |comps|
  {
    if comps == [] then None
    else if comps[0].0 == name then Some(comps[0].1)
    else Find(comps[1..], name)
  }

  /** `components[name] = component`: replace in place when present, else append. */
  function Put(comps: seq<Entry>, name: string, c: Component): seq<Entry>
    decreases |comps|
  {
    if comps == [] then [(name, c)]
    else if comps[0].0 == name then [(name, c)] + comps[1..]
    else [comps[0]] + Put(comps[1..], name, c)
  }

  /** `Put` is dictionary assignment: afterwards `name` maps to the new component
      and every other name to what it mapped to; an existing name keeps its place
      and adds no entry, a new one is appended at the end. */
  lemma {:induction false} PutIsAssignment(comps: seq<Entry>, name: string, c: Component)
    requires DistinctNames(comps)
    ensures DistinctNames(Put(comps, name, c))
    ensures forall n :: Find(Put(comps, name, c), n) == if n == name then Some(c) else Find(comps, n)
    ensures Find(comps, name).Some? ==> |Put(comps, name, c)| == |comps|
    ensures Find(comps, name).Some? ==>
              forall i :: 0 <= i < |comps| ==>
                Put(comps, name, c)[i] == if comps[i].0 == name then (name, c) else comps[i]
    ensures Find(comps, name).None? ==> Put(comps, name, c) == comps + [(name, c)]
    decreases |comps|
  {
    if comps != [] {
      var rest := comps[1..];
      assert DistinctNames(rest) by {
        forall i, j | 0 <= i < j < |rest| ensures rest[i].0 != rest[j].0 {
          assert rest[i] == comps[i + 1] && rest[j] == comps[j + 1];
        }
      }
      FindAbsent(rest, comps[0].0);
      if comps[0].0 != name {
        PutIsAssignment(rest, name, c);
        var r := Put(comps, name, c);
        assert r == [comps[0]] + Put(rest, name, c);
        PutNames(rest, name, c);
        assert DistinctNames(r) by {
          forall i, j | 0 <= i < j < |r| ensures r[i].0 != r[j].0 {
            if i == 0 {
              assert r[j] == Put(rest, name, c)[j - 1];
            } else {
              assert r[i] == Put(rest, name, c)[i - 1] && r[j] == Put(rest, name, c)[j - 1];
            }
          }
        }
        if Find(comps, name).Some? {
          forall i | 0 <= i < |comps|
            ensures r[i] == if comps[i].0 == name then (name, c) else comps[i]
          {
            if i > 0 {
              assert r[i] == Put(rest, name, c)[i - 1] && comps[i] == rest[i - 1];
            }
          }
        }
      } else {
        var r := Put(comps, name, c);
        assert DistinctNames(r) by {
          forall i, j | 0 <= i < j < |r| ensures r[i].0 != r[j].0 {
            assert r[i].0 == comps[i].0 && r[j].0 == comps[j].0;
          }
        }
        forall i | 0 <= i < |comps|
          ensures r[i] == if comps[i].0 == name then (name, c) else comps[i]
        {
          if i > 0 {
            assert comps[i].0 != comps[0].0;
          }
        }
        forall n ensures Find(r, n) == if n == name then Some(c) else Find(comps, n) {
          assert r[1..] == rest;
        }
      }
    }
  }

  /** `Put` changes no name except by appending `name`. */
  lemma {:induction false} PutNames(comps: seq<Entry>, name: string, c: Component)
    ensures |Put(comps, name, c)| >= |comps|
    ensures forall i :: 0 <= i < |comps| ==> Put(comps, name, c)[i].0 == comps[i].0
    ensures forall i :: |comps| <= i < |Put(comps, name, c)| ==> Put(comps, name, c)[i].0 == name
    decreases |comps|
  {
    if comps != [] && comps[0].0 != name {
      PutNames(comps[1..], name, c);
    }
  }

  /** A name that occurs in no entry is not found. */
  lemma {:induction false} FindAbsent(comps: seq<Entry>, name: string)
    requires forall i :: 0 <= i < |comps| ==> comps[i].0 != name
    ensures Find(comps, name) == None
    decreases |comps|
  {
    if comps != [] {
      FindAbsent(comps[1..], name);
    }
  }

  // ---------------------------------------------------------------------------
  // total_mass

  /** One component's share of `total_mass`: the solved `{name}_mass` if present,
      else the truthy static mass, else zero. */
  function MassTerm(e: Entry, vals: map<string, real>): real {
    if MassKey(e.0) in vals then vals[MassKey(e.0)] else OrZero(e.1.StaticMass())
  }

  function MassSum(comps: seq<Entry>, vals: map<string, real>): real
    decreases |comps|
  {
    if comps == [] then 0.0 else MassSum(comps[..|comps| - 1], vals) + MassTerm(comps[|comps| - 1], vals)
  }

  /** The sum of the truthy static masses. */
  function StaticMassSum(comps: seq<Entry>): real
    decreases |comps|
  {
    if comps == [] then 0.0 else StaticMassSum(comps[..|comps| - 1]) + OrZero(comps[|comps| - 1].1.StaticMass())
  }

  lemma {:induction false} MassSumPointwise(comps: seq<Entry>, vals: map<string, real>)
    requires forall i :: 0 <= i < |comps| ==> MassTerm(comps[i], vals) == OrZero(comps[i].1.StaticMass())
    ensures MassSum(comps, vals) == StaticMassSum(comps)
    decreases |comps|
  {
    if comps != [] {
      var init := comps[..|comps| - 1];
      assert forall i :: 0 <= i < |init| ==> init[i] == comps[i];
      MassSumPointwise(init, vals);
    }
  }

  /** Right after `_setup` from a pool without equations, solving changes nothing
      and `total_mass` is the sum of the truthy static masses, provided no
      component without a truthy mass finds a stale `{name}_mass` in the pool
      (a truthy mass overwrites whatever an earlier pass stored). */
  lemma TotalMassAfterSetup(comps: seq<Entry>, p: Pool, law: VelocityLaw, backend: Backend)
    requires DistinctNames(comps)
    requires p.constraints == []
    requires forall i :: 0 <= i < |comps| && !Truthy(comps[i].1.StaticMass()) ==> MassKey(comps[i].0) !in p.values
    ensures Solve(SetupPass(comps, p, law), backend) == SetupPass(comps, p, law)
    ensures MassSum(comps, SetupPass(comps, p, law).values) == StaticMassSum(comps)
  {
    var after := SetupPass(comps, p, law);
    SetupShape(comps, p, law);
    SolveWithoutEquations(after, backend);
    forall i | 0 <= i < |comps|
      ensures MassTerm(comps[i], after.values) == OrZero(comps[i].1.StaticMass())
    {
      var key := MassKey(comps[i].0);
      MassKeyIsNoContributionKey(comps[i].0);
      SetupLastWriterWins(comps, p, law, key);
      forall j | 0 <= j < |comps| && j != i ensures EntryWrite(comps[j], key).None? {
        StaticWriteIsOwnKey(comps[j].1, key);
        MassKeyInjective(comps[j].0, comps[i].0);
      }
      StaticWriteIsOwnKey(comps[i].1, key);
    }
    MassSumPointwise(comps, after.values);
  }

  /** A component whose mass is not truthy declares no `{name}_mass`, so a value
      an earlier pass stored under its name survives the rebuild and is what
      `total_mass` counts for it (as when a component is replaced by one without
      a mass). */
  lemma StaleMassSurvivesRebuild(comps: seq<Entry>, p: Pool, law: VelocityLaw, i: nat)
    requires DistinctNames(comps) && i < |comps|
    requires !Truthy(comps[i].1.StaticMass()) && MassKey(comps[i].0) in p.values
    ensures MassTerm(comps[i], SetupPass(comps, p, law).values) == p.values[MassKey(comps[i].0)]
  {
    var key := MassKey(comps[i].0);
    MassKeyIsNoContributionKey(comps[i].0);
    SetupLastWriterWins(comps, p, law, key);
    forall j | 0 <= j < |comps| ensures EntryWrite(comps[j], key).None? {
      StaticWriteIsOwnKey(comps[j].1, key);
      MassKeyInjective(comps[j].0, comps[i].0);
    }
  }

  // ---------------------------------------------------------------------------
  // validate_constraints

  const ValidationKeys: set<string> := {
    "thrust_target", "specific_impulse_range", "thrust_to_weight", "chamber_pressure_range",
    "mass_flow_rate_positive", "of_ratio_reasonable", "pump_pressure_adequate",
    "expansion_ratio_reasonable"}

  function Abs(x: real): real {
    if x < 0.0 then -x else x
  }

  /** A pump whose name contains "fuel". */
  predicate IsFuelPump(e: Entry) {
    e.1.Pump? && Contains(e.0, "fuel")
  }

  /** A pump whose name contains "oxidizer" but not "fuel". */
  predicate IsOxidizerPump(e: Entry) {
    e.1.Pump? && !Contains(e.0, "fuel") && Contains(e.0, "oxidizer")
  }

  /** `(fuel_flow, ox_flow)` after the O/F loop over the components. */
  function PumpFlows(comps: seq<Entry>): (real, real)
    decreases |comps|
  {
    if comps == [] then (0.0, 0.0)
    else
      var prev := PumpFlows(comps[..|comps| - 1]);
      var e := comps[|comps| - 1];
      if IsFuelPump(e) then (OrZero(e.1.massFlowRate), prev.1)
      else if IsOxidizerPump(e) then (prev.0, OrZero(e.1.massFlowRate))
      else prev
  }

  /** The expansion ratio the `for ... else` loop settles on: that of the first
      nozzle with a truthy ratio. */
  function FirstNozzleRatio(comps: seq<Entry>): Option<real>
    decreases |comps|
  {
    if comps == [] then None
    else if comps[0].1.Nozzle? && Truthy(comps[0].1.expansionRatio) then comps[0].1.expansionRatio
    else FirstNozzleRatio(comps[1..])
  }

  /** The battery of checks: `early` is the pool's values when the method starts
      its reads (after one solve), `twr` the thrust-to-weight ratio and `late`
      the values after the two further solves that ratio performs. */
  function Validation(early: map<string, real>, twr: real, late: map<string, real>, comps: seq<Entry>): Checks {
    Checks(ThrustTargetCheck(early),
           IspRangeCheck(early),
           ThrustToWeightCheck(twr),
           ChamberPressureCheck(late),
           MassFlowCheck(late),
           OfRatioCheck(PumpFlows(comps).0, PumpFlows(comps).1),
           PumpPressureCheck(late),
           ExpansionRatioCheck(FirstNozzleRatio(comps)))
  }

  /** The thrust lies within 1000 N of 25 kN. */
  function ThrustTargetCheck(early: map<string, real>): bool {
    Abs(Get(early, "thrust", 0.0) - 25000.0) < 1000.0
  }

  /** The specific impulse lies in [300, 450] s. */
  function IspRangeCheck(early: map<string, real>): bool {
    300.0 <= Get(early, "specific_impulse", 0.0) <= 450.0
  }

  /** The chamber pressure lies in [1, 20] MPa. */
  function ChamberPressureCheck(late: map<string, real>): bool {
    1000000.0 <= Get(late, "chamber_pressure", 0.0) <= 20000000.0
  }

  /** The total mass flow rate is positive. */
  function MassFlowCheck(late: map<string, real>): bool {
    Get(late, "total_mass_flow_rate", 0.0) > 0.0
  }

  /** A zero ratio fails; otherwise the ratio must exceed one. */
  function ThrustToWeightCheck(twr: real): bool {
    if twr != 0.0 then twr > 1.0 else false
  }

  /** Without fuel flow the check fails; otherwise O/F must lie in [4, 8]. */
  function OfRatioCheck(fuelFlow: real, oxFlow: real): bool {
    if fuelFlow > 0.0 then 4.0 <= oxFlow / fuelFlow <= 8.0 else false
  }

  /** Without both the tank and the chamber pressure the check fails; otherwise
      tank pressure plus pump gain must exceed the chamber pressure. */
  function PumpPressureCheck(late: map<string, real>): bool {
    var tank := Get(late, "tank_pressure", 0.0);
    var chamber := Get(late, "chamber_pressure", 0.0);
    if tank != 0.0 && chamber != 0.0 then tank + Get(late, "pump_pressure_gain", 0.0) > chamber else false
  }

  /** Without a nozzle ratio the check fails; otherwise it must lie in [10, 100]. */
  function ExpansionRatioCheck(ratio: Option<real>): bool {
    if ratio.Some? then 10.0 <= ratio.value <= 100.0 else false
  }

  /** The eight outcomes of the battery, one field per check. */
  datatype Checks = Checks(
    thrustTarget: bool, ispRange: bool, thrustToWeight: bool, pcRange: bool,
    mdotPositive: bool, ofRatio: bool, pumpPressure: bool, expansionRatio: bool)
  {
    /** The results dictionary, keyed by the check names. */
    function AsDict(): map<string, bool> {
      map[
        "thrust_target" := thrustTarget,
        "specific_impulse_range" := ispRange,
        "thrust_to_weight" := thrustToWeight,
        "chamber_pressure_range" := pcRange,
        "mass_flow_rate_positive" := mdotPositive,
        "of_ratio_reasonable" := ofRatio,
        "pump_pressure_adequate" := pumpPressure,
        "expansion_ratio_reasonable" := expansionRatio]
    }
  }

  /** The dictionary reports exactly the eight named checks, each under its own
      name. */
  lemma ReportsEightChecks(c: Checks)
    ensures c.AsDict().Keys == ValidationKeys
  {
  }

  /** The performance checks, as reported under their names: thrust within
      1000 N of 25 kN and Isp in [300, 450] s, both read after the first solve,
      and a thrust-to-weight ratio above one. */
  lemma ReportsPerformanceChecks(early: map<string, real>, twr: real, late: map<string, real>, comps: seq<Entry>)
    ensures var d := Validation(early, twr, late, comps).AsDict();
            && (d["thrust_target"] <==> -1000.0 < Get(early, "thrust", 0.0) - 25000.0 < 1000.0)
            && (d["specific_impulse_range"] <==> 300.0 <= Get(early, "specific_impulse", 0.0) <= 450.0)
            && (d["thrust_to_weight"] <==> twr > 1.0)
  {
  }

  /** The chamber checks, as reported under their names: chamber pressure in
      [1, 20] MPa and a positive total mass flow, both read after all three
      solves, and an O/F ratio in [4, 8] over a positive fuel flow. */
  lemma ReportsChamberChecks(early: map<string, real>, twr: real, late: map<string, real>, comps: seq<Entry>)
    ensures var d := Validation(early, twr, late, comps).AsDict();
            && (d["chamber_pressure_range"] <==> 1000000.0 <= Get(late, "chamber_pressure", 0.0) <= 20000000.0)
            && (d["mass_flow_rate_positive"] <==> Get(late, "total_mass_flow_rate", 0.0) > 0.0)
            && (d["of_ratio_reasonable"] <==>
                  PumpFlows(comps).0 > 0.0 && 4.0 <= PumpFlows(comps).1 / PumpFlows(comps).0 <= 8.0)
  {
  }

  /** The hardware checks, as reported under their names: tank pressure plus pump
      gain above a nonzero chamber pressure, and the first nozzle's truthy ratio
      in [10, 100]. */
  lemma ReportsHardwareChecks(early: map<string, real>, twr: real, late: map<string, real>, comps: seq<Entry>)
    ensures var d := Validation(early, twr, late, comps).AsDict();
            && (d["pump_pressure_adequate"] <==>
                  && Get(late, "tank_pressure", 0.0) != 0.0
                  && Get(late, "chamber_pressure", 0.0) != 0.0
                  && Get(late, "tank_pressure", 0.0) + Get(late, "pump_pressure_gain", 0.0)
                     > Get(late, "chamber_pressure", 0.0))
            && (d["expansion_ratio_reasonable"] <==>
                  FirstNozzleRatio(comps).Some? && 10.0 <= FirstNozzleRatio(comps).value <= 100.0)
  {
  }

  /** Changing only the pump pressure gain the checks read moves only
      `pump_pressure_adequate`: the other seven outcomes stay as they were. */
  lemma PumpGainOnlyMovesPumpCheck(early: map<string, real>, twr: real, late: map<string, real>,
                                   comps: seq<Entry>, g: real)
    ensures var b := Validation(early, twr, late["pump_pressure_gain" := g], comps);
            Validation(early, twr, late, comps).(pumpPressure := b.pumpPressure) == b
  {
  }

  /** The fuel flow is that of the last pump named with "fuel". */
  lemma {:induction false} FuelFlowIsLastFuelPump(comps: seq<Entry>, j: nat)
    requires j < |comps| && IsFuelPump(comps[j])
    requires forall i :: j < i < |comps| ==> !IsFuelPump(comps[i])
    ensures PumpFlows(comps).0 == OrZero(comps[j].1.massFlowRate)
    decreases |comps|
  {
    if j < |comps| - 1 {
      var init := comps[..|comps| - 1];
      assert !IsFuelPump(comps[|comps| - 1]);
      assert init[j] == comps[j];
      forall i | j < i < |init| ensures !IsFuelPump(init[i]) {
        assert init[i] == comps[i];
      }
      FuelFlowIsLastFuelPump(init, j);
    }
  }

  /** Without a pump named with "fuel", the fuel flow is zero. */
  lemma {:induction false} FuelFlowWithoutFuelPump(comps: seq<Entry>)
    requires forall i :: 0 <= i < |comps| ==> !IsFuelPump(comps[i])
    ensures PumpFlows(comps).0 == 0.0
    decreases |comps|
  {
    if comps != [] {
      var init := comps[..|comps| - 1];
      forall i | 0 <= i < |init| ensures !IsFuelPump(init[i]) {
        assert init[i] == comps[i];
      }
      FuelFlowWithoutFuelPump(init);
    }
  }

  /** The oxidizer flow is that of the last pump named with "oxidizer" (and not
      "fuel"). */
  lemma {:induction false} OxidizerFlowIsLastOxidizerPump(comps: seq<Entry>, j: nat)
    requires j < |comps| && IsOxidizerPump(comps[j])
    requires forall i :: j < i < |comps| ==> !IsOxidizerPump(comps[i])
    ensures PumpFlows(comps).1 == OrZero(comps[j].1.massFlowRate)
    decreases |comps|
  {
    if j < |comps| - 1 {
      var init := comps[..|comps| - 1];
      assert !IsOxidizerPump(comps[|comps| - 1]);
      assert init[j] == comps[j];
      forall i | j < i < |init| ensures !IsOxidizerPump(init[i]) {
        assert init[i] == comps[i];
      }
      OxidizerFlowIsLastOxidizerPump(init, j);
    }
  }

  /** Without a pump named with "oxidizer" (and not "fuel"), the oxidizer flow is
      zero. */
  lemma {:induction false} OxidizerFlowWithoutOxidizerPump(comps: seq<Entry>)
    requires forall i :: 0 <= i < |comps| ==> !IsOxidizerPump(comps[i])
    ensures PumpFlows(comps).1 == 0.0
    decreases |comps|
  {
    if comps != [] {
      var init := comps[..|comps| - 1];
      forall i | 0 <= i < |init| ensures !IsOxidizerPump(init[i]) {
        assert init[i] == comps[i];
      }
      OxidizerFlowWithoutOxidizerPump(init);
    }
  }

  /** Some pump named with "fuel" is the last such pump. */
  lemma {:induction false} LastFuelPumpExists(comps: seq<Entry>, i: nat)
    requires i < |comps| && IsFuelPump(comps[i])
    ensures exists j :: i <= j < |comps| && IsFuelPump(comps[j])
                        && forall m :: j < m < |comps| ==> !IsFuelPump(comps[m])
    decreases |comps| - i
  {
    if exists m :: i < m < |comps| && IsFuelPump(comps[m]) {
      var m :| i < m < |comps| && IsFuelPump(comps[m]);
      LastFuelPumpExists(comps, m);
    } else {
      assert forall m :: i < m < |comps| ==> !IsFuelPump(comps[m]);
    }
  }

  /** `of_ratio_reasonable` is false unless the last pump named with "fuel" has a
      positive flow, and then it says the O/F ratio lies in [4, 8]. */
  lemma OfRatioNeedsFuelFlow(comps: seq<Entry>)
    ensures OfRatioCheck(PumpFlows(comps).0, PumpFlows(comps).1) ==>
      exists j :: 0 <= j < |comps| && IsFuelPump(comps[j])
                  && (forall i :: j < i < |comps| ==> !IsFuelPump(comps[i]))
                  && OrZero(comps[j].1.massFlowRate) > 0.0
                  && 4.0 <= PumpFlows(comps).1 / OrZero(comps[j].1.massFlowRate) <= 8.0
  {
    if exists i :: 0 <= i < |comps| && IsFuelPump(comps[i]) {
      var i :| 0 <= i < |comps| && IsFuelPump(comps[i]);
      LastFuelPumpExists(comps, i);
      var j :| i <= j < |comps| && IsFuelPump(comps[j]) && forall m :: j < m < |comps| ==> !IsFuelPump(comps[m]);
      FuelFlowIsLastFuelPump(comps, j);
    } else {
      FuelFlowWithoutFuelPump(comps);
    }
  }

  /** `pump_pressure_adequate` is false unless both the tank and the chamber
      pressures are nonzero, and then it compares tank pressure plus pump gain
      with the chamber pressure. */
  lemma PumpPressureRule(early: map<string, real>, twr: real, late: map<string, real>, comps: seq<Entry>)
    ensures Validation(early, twr, late, comps).pumpPressure <==>
      && Get(late, "tank_pressure", 0.0) != 0.0
      && Get(late, "chamber_pressure", 0.0) != 0.0
      && Get(late, "tank_pressure", 0.0) + Get(late, "pump_pressure_gain", 0.0) > Get(late, "chamber_pressure", 0.0)
  {
  }

  /** `FirstNozzleRatio` is the ratio of the first nozzle with a truthy ratio, and
      `None` when there is no such nozzle. */
  lemma {:induction false} FirstNozzleRatioIsFirst(comps: seq<Entry>)
    ensures FirstNozzleRatio(comps).None? <==>
            forall i :: 0 <= i < |comps| ==> !(comps[i].1.Nozzle? && Truthy(comps[i].1.expansionRatio))
    ensures forall j :: 0 <= j < |comps| && comps[j].1.Nozzle? && Truthy(comps[j].1.expansionRatio)
                        && (forall i :: 0 <= i < j ==> !(comps[i].1.Nozzle? && Truthy(comps[i].1.expansionRatio)))
                        ==> FirstNozzleRatio(comps) == comps[j].1.expansionRatio
    decreases |comps|
  {
    if comps != [] {
      var rest := comps[1..];
      FirstNozzleRatioIsFirst(rest);
      assert forall i :: 0 <= i < |rest| ==> rest[i] == comps[i + 1];
      if !(comps[0].1.Nozzle? && Truthy(comps[0].1.expansionRatio)) {
        if FirstNozzleRatio(comps).Some? {
          var i :| 0 <= i < |rest| && rest[i].1.Nozzle? && Truthy(rest[i].1.expansionRatio);
          assert comps[i + 1] == rest[i];
        }
        forall j | 0 <= j < |comps| && comps[j].1.Nozzle? && Truthy(comps[j].1.expansionRatio)
                   && (forall i :: 0 <= i < j ==> !(comps[i].1.Nozzle? && Truthy(comps[i].1.expansionRatio)))
          ensures FirstNozzleRatio(comps) == comps[j].1.expansionRatio
        {
          assert j > 0;
          assert rest[j - 1] == comps[j];
          assert forall i :: 0 <= i < j - 1 ==> rest[i] == comps[i + 1];
        }
      }
    }
  }

  /** `expansion_ratio_reasonable` is decided by the first nozzle with a truthy
      ratio and is false when there is none. */
  lemma ExpansionRatioRule(early: map<string, real>, twr: real, late: map<string, real>, comps: seq<Entry>)
    ensures (forall i :: 0 <= i < |comps| ==> !(comps[i].1.Nozzle? && Truthy(comps[i].1.expansionRatio)))
            ==> !Validation(early, twr, late, comps).expansionRatio
    ensures forall j :: 0 <= j < |comps| && comps[j].1.Nozzle? && Truthy(comps[j].1.expansionRatio)
                        && (forall i :: 0 <= i < j ==> !(comps[i].1.Nozzle? && Truthy(comps[i].1.expansionRatio)))
                        ==> (Validation(early, twr, late, comps).expansionRatio
                             <==> 10.0 <= comps[j].1.expansionRatio.value <= 100.0)
  {
    FirstNozzleRatioIsFirst(comps);
  }

  /** Two resolutions in a row, as `thrust_to_weight_ratio` performs. */
  function SolveTwice(p: Pool, backend: Backend): Pool {
    Solve(Solve(p, backend), backend)
  }

  // ---------------------------------------------------------------------------
  // The assembly object

  class PropulsionSystem {
    var components: seq<Entry>
    const pool: ConstraintSystem
    const law: VelocityLaw

    ghost predicate Valid()
      reads this
    {
      DistinctNames(components)
    }

    /** The dataclass constructor with its `__post_init__`, which runs `_setup`. */
    constructor (initial: seq<Entry>, pool: ConstraintSystem, law: VelocityLaw)
      requires DistinctNames(initial)
      modifies pool
      ensures Valid() && components == initial && this.pool == pool && this.law == law
      ensures pool.State() == SetupPass(initial, old(pool.State()), law)
    {
      components := initial;
      this.pool := pool;
      this.law := law;
      new;
      Setup();
    }

    /** `_setup`: re-register every component in dictionary order. */
    method Setup()
      modifies pool
      ensures pool.State() == SetupPass(components, old(pool.State()), law)
      ensures KeysDeclared(old(pool.State())) && Closed(old(pool.State()))
              ==> KeysDeclared(pool.State()) && Closed(pool.State())
    {
      if KeysDeclared(pool.State()) && Closed(pool.State()) {
        SetupKeepsKeysDeclared(components, pool.State(), law);
      }
      var i := 0;
      while i < |components|
        invariant 0 <= i <= |components|
        invariant pool.State() == SetupPass(components[..i], old(pool.State()), law)
      {
        var e := components[i];
        var m := e.1.StaticMass();
        if Truthy(m) {
          pool.AddVariable(MassKey(e.0), m);
        }
        e.1.AddConstraints(pool, law);
        assert components[..i + 1][..i] == components[..i];
        i := i + 1;
      }
      assert components[..i] == components;
    }

    /** `add_component`: store the component under its name, then rebuild. */
    method AddComponent(name: string, component: Component)
      requires Valid()
      modifies this, pool
      ensures Valid() && components == Put(old(components), name, component)
      ensures pool.State() == SetupPass(components, old(pool.State()), law)
    {
      PutIsAssignment(components, name, component);
      components := Put(components, name, component);
      Setup();
    }

    /** `solve`. */
    method Solve() returns (vals: map<string, real>)
      modifies pool
      ensures pool.State() == Constraints.Solve(old(pool.State()), pool.backend)
      ensures vals == pool.solvedValues
    {
      vals := pool.SolveSystem();
    }

    /** `thrust`: the solved thrust, 0 when unknown. */
    method Thrust() returns (t: real)
      modifies pool
      ensures pool.State() == Constraints.Solve(old(pool.State()), pool.backend)
      ensures t == Get(pool.solvedValues, "thrust", 0.0)
    {
      var vals := Solve();
      t := Get(vals, "thrust", 0.0);
    }

    /** `specific_impulse`: the solved specific impulse, 0 when unknown. */
    method SpecificImpulse() returns (isp: real)
      modifies pool
      ensures pool.State() == Constraints.Solve(old(pool.State()), pool.backend)
      ensures isp == Get(pool.solvedValues, "specific_impulse", 0.0)
    {
      var vals := Solve();
      isp := Get(vals, "specific_impulse", 0.0);
    }

    /** `total_mass`: solved mass keys with the static masses as fallback. */
    method TotalMass() returns (total: real)
      modifies pool
      ensures pool.State() == Constraints.Solve(old(pool.State()), pool.backend)
      ensures total == MassSum(components, pool.solvedValues)
    {
      var vals := Solve();
      total := 0.0;
      var i := 0;
      while i < |components|
        invariant 0 <= i <= |components|
        invariant total == MassSum(components[..i], vals)
      {
        var e := components[i];
        var key := MassKey(e.0);
        if key in vals {
          total := total + vals[key];
        } else if Truthy(e.1.StaticMass()) {
          total := total + e.1.StaticMass().value;
        }
        assert components[..i + 1][..i] == components[..i];
        i := i + 1;
      }
      assert components[..i] == components;
    }

    /** `thrust_to_weight_ratio`: thrust over weight; it solves twice, once for the
        thrust and once for the mass. */
    method ThrustToWeightRatio() returns (twr: real)
      requires MassSum(components, SolveTwice(pool.State(), pool.backend).values) != 0.0
      modifies pool
      ensures pool.State() == SolveTwice(old(pool.State()), pool.backend)
      ensures twr == Get(Constraints.Solve(old(pool.State()), pool.backend).values, "thrust", 0.0)
                     / (MassSum(components, pool.solvedValues) * G0)
    {
      var t := Thrust();
      var m := TotalMass();
      twr := t / (m * G0);
    }

    /** `validate_constraints`. The source reads its checks from the dictionary
        `solve()` returned, which is the pool's own map: the reads after the
        thrust-to-weight ratio therefore see the pool after that ratio's two solves. */
    method ValidateConstraints() returns (results: map<string, bool>)
      requires MassSum(components, SolveTwice(Constraints.Solve(pool.State(), pool.backend), pool.backend).values) != 0.0
      modifies pool
      ensures pool.State() == SolveTwice(Constraints.Solve(old(pool.State()), pool.backend), pool.backend)
      ensures results == Validation(
                Constraints.Solve(old(pool.State()), pool.backend).values,
                Get(SolveTwice(old(pool.State()), pool.backend).values, "thrust", 0.0)
                  / (MassSum(components, pool.solvedValues) * G0),
                pool.solvedValues, components).AsDict()
    {
      var vals := Solve();
      ghost var afterFirst := pool.State();
      var twr := ThrustToWeightRatio();
      assert twr == Get(SolveTwice(old(pool.State()), pool.backend).values, "thrust", 0.0)
                    / (MassSum(components, pool.solvedValues) * G0);
      var checks := RunChecks(vals, twr, pool.solvedValues);
      assert checks == Validation(afterFirst.values, twr, pool.solvedValues, components);
      results := checks.AsDict();
    }

    /** The checks of `validate_constraints` once the solves are done: `early` is
        what the first solve returned, `late` the pool's values after the
        thrust-to-weight ratio. */
    method RunChecks(early: map<string, real>, twr: real, late: map<string, real>) returns (checks: Checks)
      ensures checks == Validation(early, twr, late, components)
    {
      var thrustTarget := ThrustTargetCheck(early);
      var ispRange := IspRangeCheck(early);
      var twrCheck := ThrustToWeightCheck(twr);
      var pcRange := ChamberPressureCheck(late);
      var mdotPositive := MassFlowCheck(late);
      var fuelFlow, oxFlow := PumpFlowsOf();
      var ofCheck := OfRatioCheck(fuelFlow, oxFlow);
      var pressureCheck := PumpPressureCheck(late);
      var ratio := ExpansionRatioOf();
      var ratioCheck := ExpansionRatioCheck(ratio);
      checks := Checks(thrustTarget, ispRange, twrCheck, pcRange, mdotPositive, ofCheck, pressureCheck, ratioCheck);
    }

    /** The O/F loop of `validate_constraints`: the last flows of the pumps named
        with "fuel" and with "oxidizer". */
    method PumpFlowsOf() returns (fuelFlow: real, oxFlow: real)
      ensures (fuelFlow, oxFlow) == PumpFlows(components)
    {
      fuelFlow, oxFlow := 0.0, 0.0;
      var i := 0;
      while i < |components|
        invariant 0 <= i <= |components|
        invariant (fuelFlow, oxFlow) == PumpFlows(components[..i])
      {
        var e := components[i];
        if e.1.Pump? {
          if Contains(e.0, "fuel") {
            fuelFlow := OrZero(e.1.massFlowRate);
          } else if Contains(e.0, "oxidizer") {
            oxFlow := OrZero(e.1.massFlowRate);
          }
        }
        assert components[..i + 1][..i] == components[..i];
        i := i + 1;
      }
      assert components[..i] == components;
    }

    /** The `for ... else` loop of `validate_constraints`: the ratio of the first
        nozzle with a truthy ratio, `None` when the loop runs to its end. */
    method ExpansionRatioOf() returns (ratio: Option<real>)
      ensures ratio == FirstNozzleRatio(components)
    {
      var j := 0;
      ratio := None;
      while j < |components|
        invariant 0 <= j <= |components|
        invariant FirstNozzleRatio(components) == FirstNozzleRatio(components[j..])
      {
        var e := components[j];
        if e.1.Nozzle? && Truthy(e.1.expansionRatio) {
          return e.1.expansionRatio;
        }
        assert components[j..][1..] == components[j + 1..];
        j := j + 1;
      }
    }
  }
}
