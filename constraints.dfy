/** The known-value pool (`ConstraintSystem`): declared quantity names, the list of
    equations, and the name-to-value map of known quantities, with the resolution
    procedure that substitutes the knowns and asks the solving backend once. */
module Constraints {
  import opened Values
  import opened Symbolic

  /** The solving backend: given the substituted equations and the free unknowns,
      its first solution (a map from unknown names to numbers), or `None` when it
      finds none. */
  type Backend = (seq<Equation>, set<string>) -> Option<map<string, real>>

  /** The abstract state of a `ConstraintSystem`. */
  datatype Pool = Pool(variables: set<string>, constraints: seq<Equation>, values: map<string, real>)

  const EmptyPool: Pool := Pool({}, [], map[])

  /** Every known value belongs to a declared quantity. */
  predicate KeysDeclared(p: Pool) {
    p.values.Keys <= p.variables
  }

  /** Every equation speaks only of declared quantities. */
  predicate Closed(p: Pool) {
    SymbolsOf(p.constraints) <= p.variables
  }

  /** `add_variable(name, value)`: declare `name`; store `value` unless it is `None`. */
  function Declare(p: Pool, name: string, value: Option<real>): Pool {
    Pool(p.variables + {name}, p.constraints,
         if value.Some? then p.values[name := value.value] else p.values)
  }

  /** `add_constraint(c)`. */
  function AddEquation(p: Pool, c: Equation): Pool {
    p.(constraints := p.constraints + [c])
  }

  /** The substitution of `solve_system`: the known values of declared quantities. */
  function Substitution(p: Pool): map<string, real> {
    map k | k in p.values && k in p.variables :: p.values[k]
  }

  /** The symbols still free once the knowns are substituted. */
  function Unknowns(p: Pool): set<string> {
    SymbolsOf(SubstAll(p.constraints, Substitution(p))) - Substitution(p).Keys
  }

  /** What the backend answers for the current pool. */
  function Answer(p: Pool, backend: Backend): Option<map<string, real>> {
    backend(SubstAll(p.constraints, Substitution(p)), Unknowns(p))
  }

  /** The backend's answer, if any, names only unknowns (as `solve` does when asked
      for a list of symbols). */
  predicate AnswerWithinUnknowns(p: Pool, backend: Backend) {
    Answer(p, backend).Some? ==> Answer(p, backend).value.Keys <= Unknowns(p)
  }

  /** `solve_system`: exit early when nothing is free, otherwise merge the
      backend's first solution, if there is one, into the known values. */
  function Solve(p: Pool, backend: Backend): Pool {
    if Unknowns(p) == {} then p
    else match Answer(p, backend)
      case None => p
      case Some(sol) => p.(values := p.values + sol)
  }

  /** After `add_variable(n, v)`, `n` is declared and nothing else was added; the
      values change at most at `n`, which holds `v` when `v` is not `None`. */
  lemma DeclareEffect(p: Pool, n: string, v: Option<real>)
    ensures Declare(p, n, v).variables == p.variables + {n}
    ensures Declare(p, n, v).constraints == p.constraints
    ensures forall k :: k != n ==> Lookup(Declare(p, n, v).values, k) == Lookup(p.values, k)
    ensures Lookup(Declare(p, n, v).values, n) == if v.Some? then v else Lookup(p.values, n)
  {
  }

  lemma DeclareKeepsKeysDeclared(p: Pool, n: string, v: Option<real>)
    requires KeysDeclared(p) && Closed(p)
    ensures KeysDeclared(Declare(p, n, v)) && Closed(Declare(p, n, v))
  {
  }

  /** The unknowns are the equations' symbols that are not declared knowns. */
  lemma UnknownsAreFreeSymbols(p: Pool)
    ensures Unknowns(p) == SymbolsOf(p.constraints) - (p.values.Keys * p.variables)
  {
    SubstAllRemovesKnowns(p.constraints, Substitution(p));
  }

  /** With no equations at all (as every configuration built from the components
      produces), solving returns the known values unchanged. */
  lemma SolveWithoutEquations(p: Pool, backend: Backend)
    requires p.constraints == []
    ensures Solve(p, backend) == p
  {
    assert SubstAll(p.constraints, Substitution(p)) == [];
  }

  /** When every symbol of every equation is a declared known, solving is the
      identity whatever the backend would have said. */
  lemma SolveFullyDetermined(p: Pool, backend: Backend)
    requires SymbolsOf(p.constraints) <= p.values.Keys * p.variables
    ensures Unknowns(p) == {}
    ensures Solve(p, backend) == p
  {
    UnknownsAreFreeSymbols(p);
  }

  /** When the backend finds no solution, solving is the identity. */
  lemma SolveWithoutSolution(p: Pool, backend: Backend)
    requires Answer(p, backend) == None
    ensures Solve(p, backend) == p
  {
  }

  /** Solving declares nothing, adds no equation, loses no known value and never
      changes the value of a declared known. */
  lemma SolveKeepsKnowns(p: Pool, backend: Backend)
    requires AnswerWithinUnknowns(p, backend)
    ensures Solve(p, backend).variables == p.variables
    ensures Solve(p, backend).constraints == p.constraints
    ensures p.values.Keys <= Solve(p, backend).values.Keys
    ensures forall k :: k in p.values && k in p.variables ==> Solve(p, backend).values[k] == p.values[k]
  {
    UnknownsAreFreeSymbols(p);
  }

  /** Solving a closed pool whose knowns are declared leaves every key declared. */
  lemma SolveKeepsKeysDeclared(p: Pool, backend: Backend)
    requires KeysDeclared(p) && Closed(p) && AnswerWithinUnknowns(p, backend)
    ensures KeysDeclared(Solve(p, backend)) && Closed(Solve(p, backend))
  {
    UnknownsAreFreeSymbols(p);
  }

  /** The mutable known-value pool. */
  class ConstraintSystem {
    var variables: set<string>
    var constraints: seq<Equation>
    var solvedValues: map<string, real>
    const backend: Backend

    function State(): Pool
      reads this
    {
      Pool(variables, constraints, solvedValues)
    }

    constructor (backend: Backend)
      ensures State() == EmptyPool && this.backend == backend
    {
      variables := {};
      constraints := [];
      solvedValues := map[];
      this.backend := backend;
    }

    /** `add_variable`: idempotent declaration, overwrite only when a value is given. */
    method AddVariable(name: string, value: Option<real>)
      modifies this
      ensures State() == Declare(old(State()), name, value)
      ensures KeysDeclared(old(State())) ==> KeysDeclared(State())
    {
      if name !in variables {
        variables := variables + {name};
      }
      if value.Some? {
        solvedValues := solvedValues[name := value.value];
      }
    }

    /** `add_constraint`: append an equation. */
    method AddConstraint(c: Equation)
      modifies this
      ensures State() == AddEquation(old(State()), c)
      ensures KeysDeclared(old(State())) ==> KeysDeclared(State())
    {
      constraints := constraints + [c];
    }

    /** `solve_system`: returns the (possibly updated) known values. */
    method SolveSystem() returns (vals: map<string, real>)
      modifies this
      ensures State() == Solve(old(State()), backend)
      ensures vals == solvedValues
      ensures KeysDeclared(old(State())) && Closed(old(State())) && AnswerWithinUnknowns(old(State()), backend)
              ==> KeysDeclared(State()) && Closed(State())
    {
      if KeysDeclared(State()) && Closed(State()) && AnswerWithinUnknowns(State(), backend) {
        SolveKeepsKeysDeclared(State(), backend);
      }
      var subs := map k | k in solvedValues && k in variables :: solvedValues[k];
      var eqs := SubstAll(constraints, subs);
      var unk := SymbolsOf(eqs) - subs.Keys;
      if unk == {} {
        return solvedValues;
      }
      var sol := backend(eqs, unk);
      if sol.Some? {
        var answer := sol.value;
        var pending := answer.Keys;
        while pending != {}
          invariant pending <= answer.Keys
          invariant variables == old(variables) && constraints == old(constraints)
          invariant solvedValues == old(solvedValues) + map k | k in answer && k !in pending :: answer[k]
          decreases pending
        {
          var k :| k in pending;
          solvedValues := solvedValues[k := answer[k]];
          pending := pending - {k};
        }
        assert (map k | k in answer && k !in pending :: answer[k]) == answer;
      }
      vals := solvedValues;
    }
  }
}
