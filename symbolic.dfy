/** The part of the symbolic-algebra backend that the constraint system itself
    relies on: equations over named symbols, their free symbols, and substitution
    of known numbers for symbols. A symbol is identified by its name, so creating
    the "same" symbol twice yields interchangeable handles. Solving is not here:
    the backend's `solve` is an oracle of the constraint system. */
module Symbolic {

  /** A fragment of the backend's expression language. */
  datatype Term =
    | Num(value: real)
    | Sym(name: string)
    | Add(left: Term, right: Term)
    | Mul(left: Term, right: Term)
    | Div(left: Term, right: Term)
    | Pow(left: Term, right: Term)

  /** An equality relation `Eq(lhs, rhs)`. */
  datatype Equation = Eq(lhs: Term, rhs: Term)

  /** The free symbols of a term (`free_symbols`). */
  function Symbols(t: Term): set<string> {
    match t
    case Num(_) => {}
    case Sym(n) => {n}
    case Add(a, b) => Symbols(a) + Symbols(b)
    case Mul(a, b) => Symbols(a) + Symbols(b)
    case Div(a, b) => Symbols(a) + Symbols(b)
    case Pow(a, b) => Symbols(a) + Symbols(b)
  }

  /** Replaces every symbol that `s` knows by its number (`subs`). */
  function Subst(t: Term, s: map<string, real>): Term {
    match t
    case Num(v) => Num(v)
    case Sym(n) => if n in s then Num(s[n]) else Sym(n)
    case Add(a, b) => Add(Subst(a, s), Subst(b, s))
    case Mul(a, b) => Mul(Subst(a, s), Subst(b, s))
    case Div(a, b) => Div(Subst(a, s), Subst(b, s))
    case Pow(a, b) => Pow(Subst(a, s), Subst(b, s))
  }

  function EquationSymbols(e: Equation): set<string> {
    Symbols(e.lhs) + Symbols(e.rhs)
  }

  function SubstEquation(e: Equation, s: map<string, real>): Equation {
    Eq(Subst(e.lhs, s), Subst(e.rhs, s))
  }

  /** The union of the free symbols of a list of equations. */
  function SymbolsOf(eqs: seq<Equation>): set<string>
    decreases |eqs|
  {
    if eqs == [] then {} else SymbolsOf(eqs[..|eqs| - 1]) + EquationSymbols(eqs[|eqs| - 1])
  }

  /** Substitutes into every equation of a list, keeping the order. */
  function SubstAll(eqs: seq<Equation>, s: map<string, real>): seq<Equation> {
    seq(|eqs|, i requires 0 <= i < |eqs| => SubstEquation(eqs[i], s))
  }

  /** A symbol belongs to `SymbolsOf(eqs)` exactly when some equation mentions it. */
  lemma {:induction false} SymbolsOfMember(eqs: seq<Equation>, x: string)
    ensures x in SymbolsOf(eqs) <==> exists i :: 0 <= i < |eqs| && x in EquationSymbols(eqs[i])
    decreases |eqs|
  {
    if eqs != [] {
      var init := eqs[..|eqs| - 1];
      SymbolsOfMember(init, x);
      if x in SymbolsOf(init) {
        var i :| 0 <= i < |init| && x in EquationSymbols(init[i]);
        assert eqs[i] == init[i];
      }
      if exists i :: 0 <= i < |eqs| && x in EquationSymbols(eqs[i]) {
        var i :| 0 <= i < |eqs| && x in EquationSymbols(eqs[i]);
        if i < |init| {
          assert init[i] == eqs[i];
        }
      }
    }
  }

  /** Substitution removes exactly the known symbols from a term and no others. */
  lemma {:induction false} SubstRemovesKnowns(t: Term, s: map<string, real>)
    ensures Symbols(Subst(t, s)) == Symbols(t) - s.Keys
  {
    match t
    case Num(_) =>
    case Sym(n) =>
    case Add(a, b) => SubstRemovesKnowns(a, s); SubstRemovesKnowns(b, s);
    case Mul(a, b) => SubstRemovesKnowns(a, s); SubstRemovesKnowns(b, s);
    case Div(a, b) => SubstRemovesKnowns(a, s); SubstRemovesKnowns(b, s);
    case Pow(a, b) => SubstRemovesKnowns(a, s); SubstRemovesKnowns(b, s);
  }

  /** The same for a whole list of equations. */
  lemma {:induction false} SubstAllRemovesKnowns(eqs: seq<Equation>, s: map<string, real>)
    ensures SymbolsOf(SubstAll(eqs, s)) == SymbolsOf(eqs) - s.Keys
    decreases |eqs|
  {
    if eqs != [] {
      var init := eqs[..|eqs| - 1];
      var last := eqs[|eqs| - 1];
      SubstAllRemovesKnowns(init, s);
      SubstRemovesKnowns(last.lhs, s);
      SubstRemovesKnowns(last.rhs, s);
      assert SubstAll(eqs, s)[..|eqs| - 1] == SubstAll(init, s);
    }
  }
}
